/**
 * The parser: two tokens of lookahead (`currToken`, `peekToken`) over the
 * lexer, recursive descent for statements, and a prefix-only Pratt core for
 * expressions with rules for identifiers, integers, `!` and `-`. Problems are
 * collected in `errors` rather than stopping the parse.
 *
 * The skip loops of `let` and `return` wait for a `;`. When none comes, the
 * source spins forever on EOF; the model stops in that state (`Stuck`) and
 * reports it through a `hangs` result instead.
 */
module Parsing {
  import opened Wrappers
  import opened Tokens
  import opened Lexing
  import opened Ast
  import opened Strconv

  // Operator precedences, lowest first (Go's iota starts them at 1).
  const LOWEST: int := 1
  const EQUALS: int := 2
  const LESSGREATER: int := 3
  const SUM: int := 4
  const PRODUCT: int := 5
  const PREFIX: int := 6
  const CALL: int := 7

  /** The token kinds `New` registers a prefix parse function for. */
  predicate HasPrefixRule(t: TokenType) {
    t == IDENT || t == INT || t == BANG || t == MINUS
  }

  function ExpectedMessage(expected: TokenType, got: TokenType): string {
    "expected next token to be " + Name(expected) + ", got " + Name(got) + " instead"
  }

  function NoPrefixMessage(t: TokenType): string {
    "no prefix parse function for " + Name(t) + " found"
  }

  function IntegerMessage(literal: string): string
    requires IsDecimal(literal)
  {
    "could not parse " + Quote(literal) + " as integer"
  }

  /** The parse of one expression: the node (nil when parsing it failed), the diagnostics it adds, and where its last token was scanned. */
  datatype ParsedExpression = ParsedExpression(expression: Option<Expression>, messages: seq<string>, end: nat)

  /**
   * The parse of one statement: the node, the diagnostics it adds, where the
   * token the parser is left on was scanned, and whether a skip loop found no
   * `;` before the end of the input.
   */
  datatype ParsedStatement = ParsedStatement(stmt: Statement, messages: seq<string>, end: nat, hangs: bool)

  /** The parse of a whole program: its statements, the diagnostics, and whether the parse hangs after them. */
  datatype ParsedProgram = ParsedProgram(statements: seq<Statement>, messages: seq<string>, hangs: bool)

  /**
   * What `parseExpression` makes of the token scanned at `p`: an identifier
   * or an integer stands alone, `!` and `-` take as operand the expression
   * that starts at the next token, and any other kind is nil with a
   * diagnostic. At most one diagnostic comes out, and exactly one when the
   * result is nil.
   */
  function ExprAt(input: string, p: nat): (r: ParsedExpression)
    ensures p <= r.end
    ensures r.expression.Some? ==> r.expression.value.StartToken() == Scan(input, p).token
    ensures |r.messages| <= 1 && (r.expression.None? ==> |r.messages| == 1)
    decreases |input| - p
  {
    var first := Scan(input, p);
    var t := first.token;
    if t.tokenType == IDENT then
      ParsedExpression(Some(Ident(Identifier(t, t.literal))), [], p)
    else if t.tokenType == INT then
      match ParseInt(t.literal)
      case Some(value) => ParsedExpression(Some(IntegerLiteral(t, value)), [], p)
      case None => ParsedExpression(None, [IntegerMessage(t.literal)], p)
    else if t.tokenType == BANG || t.tokenType == MINUS then
      var right := ExprAt(input, first.next);
      ParsedExpression(Some(PrefixExpression(t, t.literal, right.expression)), right.messages, right.end)
    else
      ParsedExpression(None, [NoPrefixMessage(t.tokenType)], p)
  }

  /** With the current token scanned at `p`, it and the peek token are EOF and the input is used up. */
  predicate StuckAt(input: string, p: nat) {
    var curr := Scan(input, p);
    var peek := Scan(input, curr.next);
    curr.token.tokenType == EOF && peek.token.tokenType == EOF && peek.next >= |input|
  }

  /**
   * Where a skip loop that starts on the token scanned at `p` stops: on the
   * first `;` from there, or where the parser is stuck for good.
   */
  function SkipAt(input: string, p: nat): (end: nat)
    ensures p <= end
    ensures Scan(input, end).token.tokenType == SEMICOLON || StuckAt(input, end)
    decreases |input| - p
  {
    if Scan(input, p).token.tokenType == SEMICOLON || StuckAt(input, p) then p
    else SkipAt(input, Scan(input, p).next)
  }

  /** A statement whose skip loop started at `from`: it hangs unless the loop stopped on a `;`. */
  function Skipped(input: string, stmt: Statement, from: nat): (r: ParsedStatement)
    ensures r.stmt == stmt && r.messages == [] && from <= r.end
    ensures r.hangs <==> Scan(input, r.end).token.tokenType != SEMICOLON
    ensures r.hangs ==> StuckAt(input, r.end)
  {
    var end := SkipAt(input, from);
    ParsedStatement(stmt, [], end, Scan(input, end).token.tokenType != SEMICOLON)
  }

  /**
   * `let` at `p`: an identifier must follow and then `=`, and everything up
   * to the next `;` is skipped. When either is missing it is the nil let with
   * the one "expected" diagnostic, left on the last token accepted.
   */
  function LetAt(input: string, p: nat): (r: ParsedStatement)
    ensures p <= r.end
    ensures r.stmt.Let? || r.stmt.NilLet?
    ensures r.stmt.Let? ==> r.messages == [] && (r.hangs || Scan(input, r.end).token.tokenType == SEMICOLON)
    ensures r.stmt.NilLet? ==> |r.messages| == 1 && !r.hangs
  {
    var first := Scan(input, p);
    var name := Scan(input, first.next);
    if name.token.tokenType != IDENT then
      ParsedStatement(NilLet, [ExpectedMessage(IDENT, name.token.tokenType)], p, false)
    else
      var assign := Scan(input, name.next);
      if assign.token.tokenType != ASSIGN then
        ParsedStatement(NilLet, [ExpectedMessage(ASSIGN, assign.token.tokenType)], first.next, false)
      else
        Skipped(input, Let(LetStatement(first.token, Identifier(name.token, name.token.literal), None)), name.next)
  }

  /** `LetAt` by the two tokens after `let`, given where they were scanned. */
  lemma LetAtCases(input: string, p: nat, q: nat, r: nat, name: Token)
    requires Scan(input, p).next == q && Scan(input, q) == Scanned(name, r)
    ensures var assign := Scan(input, r).token.tokenType;
      && (name.tokenType != IDENT ==> LetAt(input, p) == ParsedStatement(NilLet, [ExpectedMessage(IDENT, name.tokenType)], p, false))
      && (name.tokenType == IDENT && assign != ASSIGN ==>
            LetAt(input, p) == ParsedStatement(NilLet, [ExpectedMessage(ASSIGN, assign)], q, false))
      && (name.tokenType == IDENT && assign == ASSIGN ==>
            LetAt(input, p) == Skipped(input, Let(LetStatement(Scan(input, p).token, Identifier(name, name.literal), None)), r))
  {
  }

  /** `return` at `p`: everything after it up to the next `;` is skipped, and the value stays nil. */
  function ReturnAt(input: string, p: nat): (r: ParsedStatement)
    ensures p < r.end && r.messages == []
    ensures r.stmt == ReturnStatement(Scan(input, p).token, None)
    ensures r.hangs || Scan(input, r.end).token.tokenType == SEMICOLON
  {
    var first := Scan(input, p);
    Skipped(input, ReturnStatement(first.token, None), first.next)
  }

  /** An expression at `p`, and the `;` after it if there is one. */
  function ExpressionStatementAt(input: string, p: nat): (r: ParsedStatement)
    ensures var e := ExprAt(input, p);
      && r.stmt == ExpressionStatement(Scan(input, p).token, e.expression) && r.messages == e.messages && !r.hangs
      && (r.end == e.end || (r.end == Scan(input, e.end).next && Scan(input, r.end).token.tokenType == SEMICOLON))
  {
    var e := ExprAt(input, p);
    var after := Scan(input, e.end).next;
    var end := if Scan(input, after).token.tokenType == SEMICOLON then after else e.end;
    ParsedStatement(ExpressionStatement(Scan(input, p).token, e.expression), e.messages, end, false)
  }

  /** `parseStatement` at `p`, by the kind of the token scanned there. */
  function StatementAt(input: string, p: nat): (r: ParsedStatement)
    ensures p <= r.end
    ensures StartsWith(r.stmt, Scan(input, p).token)
    ensures r.hangs ==> StuckAt(input, r.end)
    ensures r.stmt.NilLet? ==> |r.messages| == 1
    ensures !r.hangs && (r.stmt.Let? || r.stmt.ReturnStatement?) ==> Scan(input, r.end).token.tokenType == SEMICOLON
  {
    var kind := Scan(input, p).token.tokenType;
    if kind == LET then LetAt(input, p)
    else if kind == RETURN then ReturnAt(input, p)
    else ExpressionStatementAt(input, p)
  }

  /**
   * `scan` always moves forward and finds nothing but EOF from `bound` on,
   * and a statement `parse` reads never ends before it starts: enough for
   * reading statements one after another to come to an end.
   */
  ghost predicate Forward(scan: nat -> Scanned, parse: nat -> ParsedStatement, bound: nat) {
    && (forall q: nat :: scan(q).next > q)
    && (forall q: nat :: scan(q).token.tokenType != EOF ==> q < bound)
    && (forall q: nat :: parse(q).end >= q)
  }

  /**
   * The loop of `ParseProgram` from `p`, with `scan` and `parse`: statements
   * one after the other until EOF, each starting at the token after the one
   * the previous statement ended on. A statement that hangs ends the parse
   * without being added.
   */
  function ProgramFrom(scan: nat -> Scanned, parse: nat -> ParsedStatement, bound: nat, p: nat): (r: ParsedProgram)
    requires Forward(scan, parse, bound)
    ensures |r.statements| <= if p < bound then bound - p else 0
    decreases bound - p
  {
    if scan(p).token.tokenType == EOF then ParsedProgram([], [], false)
    else
      var s := parse(p);
      if s.hangs then ParsedProgram([], s.messages, true)
      else
        var rest := ProgramFrom(scan, parse, bound, scan(s.end).next);
        ParsedProgram([s.stmt] + rest.statements, s.messages + rest.messages, rest.hangs)
  }

  lemma ScannerForward(input: string)
    ensures Forward(Scanner(input), StatementParser(input), |input|)
  {
  }

  /** `ParseProgram` from `p` over an input: no more statements than characters left, since each takes at least one. */
  function ProgramAt(input: string, p: nat): (r: ParsedProgram)
    ensures |r.statements| <= if p < |input| then |input| - p else 0
  {
    ScannerForward(input);
    ProgramFrom(Scanner(input), StatementParser(input), |input|, p)
  }

  lemma Regroup<T>(a: seq<T>, b: seq<T>, c: seq<T>)
    ensures a + (b + c) == (a + b) + c
  {
  }

  /** A statement of the kind its first token calls for, carrying that token's literal. */
  predicate StartsWith(stmt: Statement, token: Token) {
    && (token.tokenType == LET ==> stmt.Let? || stmt.NilLet?)
    && (token.tokenType == RETURN ==> stmt.ReturnStatement?)
    && (token.tokenType != LET && token.tokenType != RETURN ==> stmt.ExpressionStatement?)
    && (!stmt.NilLet? ==> stmt.TokenLiteral() == token.literal)
  }

  /** The lexer's scanning function over a fixed input, as a value the lemmas below can be stated over. */
  function Scanner(input: string): nat -> Scanned {
    (p: nat) => Scan(input, p)
  }

  /** `StatementAt` over a fixed input, as a value. */
  function StatementParser(input: string): nat -> ParsedStatement {
    (p: nat) => StatementAt(input, p)
  }

  /**
   * `statements` were parsed one after the other, the first starting at
   * position `from`: statement `i` is what `parse` gives at `at[i]`, where
   * the token is not EOF, without hanging, and leaves the parser on the
   * token scanned at `ends[i]`; the
   * next statement starts with the token scanned right after that one.
   */
  ghost predicate Consecutive(statements: seq<Statement>, at: seq<nat>, ends: seq<nat>, scan: nat -> Scanned,
                              parse: nat -> ParsedStatement, from: nat) {
    && |at| == |ends| == |statements|
    && (0 < |at| ==> at[0] == from)
    && (forall i {:trigger statements[i]} | 0 <= i < |at| ::
          statements[i] == parse(at[i]).stmt && !parse(at[i]).hangs && scan(at[i]).token.tokenType != EOF)
    && (forall i {:trigger ends[i]} | 0 <= i < |at| :: at[i] <= ends[i] && ends[i] == parse(at[i]).end)
    && (forall i {:trigger ends[i]} | 0 <= i < |at| - 1 :: at[i + 1] == scan(ends[i]).next)
  }

  /** Where the statement after the `Consecutive` ones starts. */
  ghost function Resume(ends: seq<nat>, scan: nat -> Scanned, from: nat): nat {
    if |ends| == 0 then from else scan(ends[|ends| - 1]).next
  }

  lemma ConsecutiveExtend(statements: seq<Statement>, at: seq<nat>, ends: seq<nat>, scan: nat -> Scanned,
                          parse: nat -> ParsedStatement, from: nat, start: nat)
    requires Consecutive(statements, at, ends, scan, parse, from)
    requires start == Resume(ends, scan, from) && start <= parse(start).end && !parse(start).hangs
    requires scan(start).token.tokenType != EOF
    ensures Consecutive(statements + [parse(start).stmt], at + [start], ends + [parse(start).end], scan, parse, from)
    ensures Resume(ends + [parse(start).end], scan, from) == scan(parse(start).end).next
    ensures Diagnostics(at + [start], parse) == Diagnostics(at, parse) + parse(start).messages
  {
    DiagnosticsExtend(at, parse, start);
    var statements', at', ends' := statements + [parse(start).stmt], at + [start], ends + [parse(start).end];
    forall i | 0 <= i < |at'|
      ensures statements'[i] == parse(at'[i]).stmt && !parse(at'[i]).hangs && scan(at'[i]).token.tokenType != EOF
      ensures at'[i] <= ends'[i] && ends'[i] == parse(at'[i]).end
    {
      if i < |at| {
        assert at'[i] == at[i] && ends'[i] == ends[i] && statements'[i] == statements[i];
      }
    }
    forall i | 0 <= i < |at'| - 1
      ensures at'[i + 1] == scan(ends'[i]).next
    {
      assert ends'[i] == ends[i];
      if i + 1 < |at| {
        assert at'[i + 1] == at[i + 1];
      }
    }
  }

  /** The diagnostics of the statements `parse` gives at the positions `at`, in order. */
  ghost function Diagnostics(at: seq<nat>, parse: nat -> ParsedStatement): seq<string> {
    if |at| == 0 then [] else parse(at[0]).messages + Diagnostics(at[1..], parse)
  }

  lemma {:induction false} DiagnosticsExtend(at: seq<nat>, parse: nat -> ParsedStatement, p: nat)
    ensures Diagnostics(at + [p], parse) == Diagnostics(at, parse) + parse(p).messages
    decreases |at|
  {
    if |at| > 0 {
      assert (at + [p])[1..] == at[1..] + [p];
      DiagnosticsExtend(at[1..], parse, p);
      Regroup(parse(at[0]).messages, Diagnostics(at[1..], parse), parse(p).messages);
    } else {
      assert (at + [p])[1..] == [];
    }
  }

  /** Without their first statement, `Consecutive` statements are consecutive from where the second one starts. */
  lemma ConsecutiveTail(statements: seq<Statement>, at: seq<nat>, ends: seq<nat>, scan: nat -> Scanned,
                        parse: nat -> ParsedStatement, from: nat)
    requires Consecutive(statements, at, ends, scan, parse, from) && 0 < |at|
    ensures Consecutive(statements[1..], at[1..], ends[1..], scan, parse, scan(ends[0]).next)
    ensures Resume(ends[1..], scan, scan(ends[0]).next) == Resume(ends, scan, from)
  {
    var statements', at', ends' := statements[1..], at[1..], ends[1..];
    forall i | 0 <= i < |at'|
      ensures statements'[i] == parse(at'[i]).stmt && !parse(at'[i]).hangs && scan(at'[i]).token.tokenType != EOF
      ensures at'[i] <= ends'[i] && ends'[i] == parse(at'[i]).end
    {
      assert at'[i] == at[i + 1] && ends'[i] == ends[i + 1] && statements'[i] == statements[i + 1];
    }
    forall i | 0 <= i < |at'| - 1
      ensures at'[i + 1] == scan(ends'[i]).next
    {
      assert ends'[i] == ends[i + 1] && at'[i + 1] == at[i + 2];
    }
    if 1 < |at| {
      assert at'[0] == at[1] && ends[|ends| - 1] == ends'[|ends'| - 1];
    }
  }

  /**
   * `ProgramFrom` the start of `Consecutive` statements reads exactly those
   * statements and their diagnostics, and then whatever it reads from where
   * they leave off.
   */
  lemma {:induction false} ConsecutiveProgram(statements: seq<Statement>, at: seq<nat>, ends: seq<nat>, scan: nat -> Scanned,
                                              parse: nat -> ParsedStatement, bound: nat, from: nat)
    requires Forward(scan, parse, bound) && Consecutive(statements, at, ends, scan, parse, from)
    ensures var rest := ProgramFrom(scan, parse, bound, Resume(ends, scan, from));
      ProgramFrom(scan, parse, bound, from) ==
        ParsedProgram(statements + rest.statements, Diagnostics(at, parse) + rest.messages, rest.hangs)
    decreases |at|
  {
    if 0 < |at| {
      var next := scan(ends[0]).next;
      ConsecutiveTail(statements, at, ends, scan, parse, from);
      ConsecutiveProgram(statements[1..], at[1..], ends[1..], scan, parse, bound, next);
      var rest := ProgramFrom(scan, parse, bound, Resume(ends, scan, from));
      assert statements[0] == parse(at[0]).stmt && !parse(at[0]).hangs && scan(at[0]).token.tokenType != EOF;
      assert ends[0] == parse(at[0]).end;
      assert statements == [statements[0]] + statements[1..];
      Regroup([statements[0]], statements[1..], rest.statements);
      Regroup(parse(at[0]).messages, Diagnostics(at[1..], parse), rest.messages);
    }
  }

  /** What `ProgramFrom` reads from the start of `Consecutive` statements when the parse stops right after them. */
  lemma ProgramOf(statements: seq<Statement>, at: seq<nat>, ends: seq<nat>, scan: nat -> Scanned,
                  parse: nat -> ParsedStatement, bound: nat, from: nat)
    requires Forward(scan, parse, bound) && Consecutive(statements, at, ends, scan, parse, from)
    ensures var last := Resume(ends, scan, from);
      && (scan(last).token.tokenType == EOF ==>
            ProgramFrom(scan, parse, bound, from) == ParsedProgram(statements, Diagnostics(at, parse), false))
      && (scan(last).token.tokenType != EOF && parse(last).hangs ==>
            ProgramFrom(scan, parse, bound, from) == ParsedProgram(statements, Diagnostics(at, parse) + parse(last).messages, true))
  {
    ConsecutiveProgram(statements, at, ends, scan, parse, bound, from);
    assert statements + [] == statements;
  }

  /** With a `scan` that always moves forward, a `Consecutive` statement ends before every later one starts. */
  lemma {:induction false} EndsBefore(statements: seq<Statement>, at: seq<nat>, ends: seq<nat>, scan: nat -> Scanned,
                                      parse: nat -> ParsedStatement, from: nat, i: nat, j: nat)
    requires Consecutive(statements, at, ends, scan, parse, from) && i < j < |at|
    requires forall p :: scan(p).next > p
    ensures ends[i] < at[j]
    decreases j - i
  {
    assert at[j] == scan(ends[j - 1]).next;
    if i < j - 1 {
      EndsBefore(statements, at, ends, scan, parse, from, i, j - 1);
      assert at[j - 1] <= ends[j - 1];
    }
  }

  /** `Consecutive` statements scanned from an input are laid out in source order: each ends before any later one starts. */
  lemma InSourceOrder(statements: seq<Statement>, at: seq<nat>, ends: seq<nat>, input: string, from: nat)
    requires Consecutive(statements, at, ends, Scanner(input), StatementParser(input), from)
    ensures forall i, j | 0 <= i < j < |at| :: ends[i] < at[j]
  {
    forall i, j | 0 <= i < j < |at|
      ensures ends[i] < at[j]
    {
      EndsBefore(statements, at, ends, Scanner(input), StatementParser(input), from, i, j);
    }
  }

  /** The tokens of `a b`: two identifiers, then the end of the input. */
  lemma ScanTwoWords()
    ensures Scan("a b", 0) == Scanned(Token(IDENT, "a"), 1)
    ensures Scan("a b", 1) == Scanned(Token(IDENT, "b"), 3)
    ensures Scan("a b", 3).token.tokenType == EOF
  {
    var input := "a b";
    assert RunEnd(input, 0, Whitespace) == 0;
    IdentifierIsMaximalRun(input, 0);
    assert input[0..1] == "a";
    assert RunEnd(input, 1, Whitespace) == 2;
    IdentifierIsMaximalRun(input, 1);
    assert input[2..3] == "b";
  }

  /** `a b` is two expression statements: an identifier leaves the parser on its own token. */
  lemma TwoWordsTwoStatements()
    ensures ProgramAt("a b", 0) == ParsedProgram(
      [ExpressionStatement(Token(IDENT, "a"), Some(Ident(Identifier(Token(IDENT, "a"), "a")))),
       ExpressionStatement(Token(IDENT, "b"), Some(Ident(Identifier(Token(IDENT, "b"), "b"))))], [], false)
  {
    var input := "a b";
    ScanTwoWords();
    assert StatementAt(input, 1).end == 1;
    assert ProgramAt(input, 1).statements == [ExpressionStatement(Token(IDENT, "b"), Some(Ident(Identifier(Token(IDENT, "b"), "b"))))];
    assert StatementAt(input, 0).end == 0;
  }

  class Parser {
    const lexer: Lexer
    var currToken: Token
    var peekToken: Token
    var errors: seq<string>
    /** Where in the input the current and the peek token were scanned from. */
    ghost var currAt: nat
    ghost var peekAt: nat

    /** The two tokens are the ones scanned from `currAt` and, after it, from `peekAt`. */
    ghost predicate Valid()
      reads this, lexer
    {
      && lexer.Valid() && WellFormed(currToken) && WellFormed(peekToken)
      && Scan(lexer.input, currAt) == Scanned(currToken, peekAt)
      && Scan(lexer.input, peekAt) == Scanned(peekToken, lexer.position)
    }

    /** Goes down with every token consumed, until the parser is `Stuck`. */
    ghost function Measure(): nat
      reads this, lexer
    {
      3 * lexer.Remaining()
      + (if peekToken.tokenType != EOF then 2 else 0)
      + (if currToken.tokenType != EOF then 1 else 0)
    }

    /** Both tokens are EOF and the input is used up: advancing changes nothing any more. */
    predicate Stuck(): (r: bool)
      reads this, lexer
      ensures Valid() ==> (r <==> StuckAt(lexer.input, currAt))
    {
      currToken.tokenType == EOF && peekToken.tokenType == EOF && lexer.position >= |lexer.input|
    }

    constructor New(lexer: Lexer)
      requires lexer.Valid()
      modifies lexer
      ensures Valid() && this.lexer == lexer && errors == [] && currAt == old(lexer.position)
      ensures var first := Scan(lexer.input, old(lexer.position));
        currToken == first.token && Scanned(peekToken, lexer.position) == Scan(lexer.input, first.next)
    {
      this.lexer := lexer;
      errors := [];
      currAt := lexer.position;
      var first := lexer.NextToken();
      peekAt := lexer.position;
      var second := lexer.NextToken();
      currToken, peekToken := first, second;
    }

    method NextToken()
      requires Valid()
      modifies this, lexer
      ensures Valid() && errors == old(errors)
      ensures currToken == old(peekToken) && currAt == old(peekAt) && peekAt == old(lexer.position)
      ensures Scanned(peekToken, lexer.position) == Scan(lexer.input, old(lexer.position))
      ensures old(currAt) < currAt
      ensures Measure() <= old(Measure())
      ensures !old(Stuck()) ==> Measure() < old(Measure())
      ensures old(Stuck()) ==> Stuck()
    {
      currToken := peekToken;
      currAt := peekAt;
      peekAt := lexer.position;
      peekToken := lexer.NextToken();
    }

    method Err(expected: TokenType)
      modifies this`errors
      ensures errors == old(errors) + [ExpectedMessage(expected, peekToken.tokenType)]
    {
      errors := errors + [ExpectedMessage(expected, peekToken.tokenType)];
    }

    method NoPrefixFnError(t: TokenType)
      modifies this`errors
      ensures errors == old(errors) + [NoPrefixMessage(t)]
    {
      errors := errors + [NoPrefixMessage(t)];
    }

    /** Advances past the peek token if it has the expected kind; records a diagnostic otherwise. */
    method ExpectPeek(expected: TokenType) returns (ok: bool)
      requires Valid()
      modifies this, lexer
      ensures Valid()
      ensures ok <==> old(peekToken.tokenType) == expected
      ensures ok ==> currToken == old(peekToken) && errors == old(errors)
      ensures ok ==> currAt == old(peekAt) && peekAt == old(lexer.position)
      ensures ok ==> Scanned(peekToken, lexer.position) == Scan(lexer.input, old(lexer.position))
      ensures !ok ==> errors == old(errors) + [ExpectedMessage(expected, old(peekToken.tokenType))]
      ensures !ok ==> currToken == old(currToken) && peekToken == old(peekToken) && unchanged(lexer)
      ensures !ok ==> currAt == old(currAt) && peekAt == old(peekAt)
      ensures Measure() <= old(Measure())
      ensures ok && expected != EOF ==> Measure() < old(Measure())
    {
      if peekToken.tokenType != expected {
        Err(expected);
        return false;
      }
      NextToken();
      return true;
    }

    /**
     * Statements until EOF: exactly the program `ProgramAt` reads from where
     * the parser stands. Statement `i` is the one `StatementAt` reads from the
     * token scanned at `at[i]`, and the parser was left on the token scanned at
     * `ends[i]`; the next one starts with the token right after it, so the
     * statements come in source order with nothing between them skipped.
     */
    method ParseProgram() returns (program: Program, hangs: bool, ghost at: seq<nat>, ghost ends: seq<nat>)
      requires Valid()
      modifies this, lexer
      ensures Valid()
      ensures var r := ProgramAt(lexer.input, old(currAt));
        program.statements == r.statements && errors == old(errors) + r.messages && hangs == r.hangs
      ensures !hangs ==> currToken.tokenType == EOF
      ensures hangs ==> Stuck()
      ensures |program.statements| > 0 && !program.statements[0].NilLet? ==>
        program.TokenLiteral() == old(currToken.literal)
      ensures Consecutive(program.statements, at, ends, Scanner(lexer.input), StatementParser(lexer.input), old(currAt))
      ensures forall i, j | 0 <= i < j < |at| :: ends[i] < at[j]
      ensures !hangs ==> currAt == Resume(ends, Scanner(lexer.input), old(currAt))
    {
      ScannerForward(lexer.input);
      var statements: seq<Statement> := [];
      hangs := false;
      at, ends := [], [];
      while currToken.tokenType != EOF
        invariant Valid()
        invariant errors == old(errors) + Diagnostics(at, StatementParser(lexer.input))
        invariant |statements| > 0 && !statements[0].NilLet? ==> statements[0].TokenLiteral() == old(currToken.literal)
        invariant |statements| == 0 ==> currToken == old(currToken)
        invariant Consecutive(statements, at, ends, Scanner(lexer.input), StatementParser(lexer.input), old(currAt))
        invariant currAt == Resume(ends, Scanner(lexer.input), old(currAt))
        decreases Measure()
      {
        ghost var start := currAt;
        var stmt, h := ParseStatement();
        Regroup(old(errors), Diagnostics(at, StatementParser(lexer.input)), StatementAt(lexer.input, start).messages);
        if h {
          hangs := true;
          program := Program(statements);
          InSourceOrder(statements, at, ends, lexer.input, old(currAt));
          ProgramOf(statements, at, ends, Scanner(lexer.input), StatementParser(lexer.input), |lexer.input|, old(currAt));
          return;
        }
        ConsecutiveExtend(statements, at, ends, Scanner(lexer.input), StatementParser(lexer.input), old(currAt), start);
        statements, at, ends := statements + [stmt], at + [start], ends + [currAt];
        NextToken();
      }
      program := Program(statements);
      InSourceOrder(statements, at, ends, lexer.input, old(currAt));
      ProgramOf(statements, at, ends, Scanner(lexer.input), StatementParser(lexer.input), |lexer.input|, old(currAt));
    }

    /** The statement `StatementAt` reads from the current token, leaving the parser where it does. */
    method ParseStatement() returns (stmt: Statement, hangs: bool)
      requires Valid() && currToken.tokenType != EOF
      modifies this, lexer
      ensures Valid()
      ensures var r := StatementAt(lexer.input, old(currAt));
        stmt == r.stmt && errors == old(errors) + r.messages && currAt == r.end && hangs == r.hangs
      ensures StartsWith(stmt, old(currToken))
      ensures hangs ==> Stuck()
      ensures Measure() <= old(Measure())
      ensures !hangs ==> Measure() < old(Measure()) || currToken == old(currToken)
    {
      if currToken.tokenType == LET {
        stmt, hangs := ParseLetStatement();
      } else if currToken.tokenType == RETURN {
        stmt, hangs := ParseReturnStatement();
      } else {
        stmt := ParseExpressionStatement();
        hangs := false;
      }
    }

    /**
     * `let` IDENT `=` and then everything up to the next `;`, which is
     * skipped: the statement's value is never set.
     */
    method ParseLetStatement() returns (stmt: Statement, hangs: bool)
      requires Valid() && currToken.tokenType == LET
      modifies this, lexer
      ensures Valid()
      ensures var r := LetAt(lexer.input, old(currAt));
        stmt == r.stmt && errors == old(errors) + r.messages && currAt == r.end && hangs == r.hangs
      ensures hangs ==> Stuck()
      ensures Measure() <= old(Measure())
      ensures !hangs ==> Measure() < old(Measure()) || currToken == old(currToken)
    {
      LetAtCases(lexer.input, currAt, peekAt, lexer.position, peekToken);
      var token := currToken;
      hangs := false;
      var ok := ExpectPeek(IDENT);
      if !ok {
        return NilLet, false;
      }
      var name := Identifier(currToken, currToken.literal);
      ok := ExpectPeek(ASSIGN);
      if !ok {
        return NilLet, false;
      }
      hangs := SkipToSemicolon();
      stmt := Let(LetStatement(token, name, None));
    }

    /** `return` and then everything up to the next `;`, which is skipped: the value is never set. */
    method ParseReturnStatement() returns (stmt: Statement, hangs: bool)
      requires Valid() && currToken.tokenType == RETURN
      modifies this, lexer
      ensures Valid()
      ensures var r := ReturnAt(lexer.input, old(currAt));
        stmt == r.stmt && errors == old(errors) + r.messages && currAt == r.end && hangs == r.hangs
      ensures hangs ==> Stuck()
      ensures Measure() < old(Measure())
    {
      stmt := ReturnStatement(currToken, None);
      NextToken();
      hangs := SkipToSemicolon();
    }

    /** The skip loop of `let` and `return`: on to the next `;`, or until the parser is stuck. */
    method SkipToSemicolon() returns (hangs: bool)
      requires Valid()
      modifies this, lexer
      ensures Valid() && errors == old(errors)
      ensures currAt == SkipAt(lexer.input, old(currAt))
      ensures hangs <==> currToken.tokenType != SEMICOLON
      ensures hangs ==> Stuck()
      ensures Measure() <= old(Measure())
    {
      hangs := false;
      while currToken.tokenType != SEMICOLON
        invariant Valid() && errors == old(errors)
        invariant Measure() <= old(Measure())
        invariant SkipAt(lexer.input, currAt) == SkipAt(lexer.input, old(currAt))
        decreases Measure()
      {
        if Stuck() {
          return true;
        }
        NextToken();
      }
    }

    /** An expression, and the `;` after it if there is one. */
    method ParseExpressionStatement() returns (stmt: Statement)
      requires Valid()
      modifies this, lexer
      ensures Valid()
      ensures var r := ExpressionStatementAt(lexer.input, old(currAt));
        stmt == r.stmt && errors == old(errors) + r.messages && currAt == r.end
      ensures Measure() <= old(Measure())
      ensures Measure() < old(Measure()) || currToken == old(currToken)
      ensures currToken.tokenType == SEMICOLON || peekToken.tokenType != SEMICOLON
    {
      var token := currToken;
      var expression := ParseExpression(LOWEST);
      stmt := ExpressionStatement(token, expression);
      if peekToken.tokenType == SEMICOLON {
        NextToken();
      }
    }

    /**
     * The prefix rule for the current token, or a diagnostic and nil when
     * there is none: what `ExprAt` reads from there, leaving the parser on
     * the expression's last token. With no infix rules, `precedence` plays no
     * part.
     */
    method ParseExpression(precedence: int) returns (e: Option<Expression>)
      requires Valid()
      modifies this, lexer
      ensures Valid()
      ensures var r := ExprAt(lexer.input, old(currAt));
        e == r.expression && errors == old(errors) + r.messages && currAt == r.end
      ensures Measure() <= old(Measure())
      ensures Measure() < old(Measure()) || currToken == old(currToken)
      ensures !HasPrefixRule(old(currToken.tokenType)) ==> currToken == old(currToken) && peekToken == old(peekToken)
      decreases Measure(), 1
    {
      var kind := currToken.tokenType;
      if kind == IDENT {
        e := Some(ParseIdentifier());
      } else if kind == INT {
        e := ParseIntegerLiteral();
      } else if kind == BANG || kind == MINUS {
        var prefix := ParsePrefixExpression();
        e := Some(prefix);
      } else {
        NoPrefixFnError(kind);
        e := None;
      }
    }

    /** An identifier node for the current token, named by its literal. */
    function ParseIdentifier(): (e: Expression)
      reads this
      ensures e.Ident? && e.StartToken() == currToken && e.identifier.value == currToken.literal
    {
      Ident(Identifier(currToken, currToken.literal))
    }

    /** `strconv.ParseInt(literal, 0, 64)`; a literal it rejects is a diagnostic and nil. */
    method ParseIntegerLiteral() returns (e: Option<Expression>)
      requires Valid() && currToken.tokenType == INT
      modifies this`errors
      ensures var parsed := ParseInt(currToken.literal);
        && (parsed.Some? ==> e == Some(IntegerLiteral(currToken, parsed.value)) && errors == old(errors))
        && (parsed.None? ==> e.None? && errors == old(errors) + [IntegerMessage(currToken.literal)])
    {
      var value := ParseInt(currToken.literal);
      if value.None? {
        errors := errors + [IntegerMessage(currToken.literal)];
        return None;
      }
      e := Some(IntegerLiteral(currToken, value.value));
    }

    /** The operator, then the operand parsed from the next token at PREFIX precedence. */
    method ParsePrefixExpression() returns (e: Expression)
      requires Valid() && (currToken.tokenType == BANG || currToken.tokenType == MINUS)
      modifies this, lexer
      ensures Valid()
      ensures var r := ExprAt(lexer.input, old(currAt));
        Some(e) == r.expression && errors == old(errors) + r.messages && currAt == r.end
      ensures Measure() < old(Measure())
      ensures old(currAt) < currAt
      decreases Measure(), 0
    {
      var token := currToken;
      NextToken();
      var right := ParseExpression(PREFIX);
      e := PrefixExpression(token, token.literal, right);
    }
  }
}
