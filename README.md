# Charm in Dafny

A model of the Charm interpreter: a small tree-walking interpreter for a
Monkey-like language, written in Go. The model follows the interpreter's
pipeline, one Dafny module per Go file:

- `Tokens`: token kinds and the keyword table.
- `Lexing`: the rune scanner (`class Lexer`). `Scan` is a function that
  says, for an input and a position, which token comes next and where
  scanning resumes; `Lexer.NextToken` is proved to follow it.
- `Ast`: the syntax tree.
- `Parsing`: the two-token-lookahead parser (`class Parser`), with its
  append-only list of diagnostics. `ExprAt`, `StatementAt` and `ProgramAt`
  are functions that say what is parsed from a scan position and where the
  parser is left; the parser's methods are proved to follow them.
- `Environments`: chained scopes (`class Environment`).
- `Objects`: runtime values, `Type`, `Inspect` and `HashCode`. Arrays
  and hash maps are classes because builtins change them in place.
- `Builtins`: `len`, `push`, `pop`, `keys` and `delete`.
- `Evaluator`: the evaluator itself.

Small library modules stand in for the Go facilities the interpreter uses:

- `MachineInt`: int64 wrap-around and truncating division.
- `Strconv`: `strconv.ParseInt` with base 0, and `%d` formatting.
- `Utf8`: the UTF-8 encoding behind `len` and `[]byte(s)`.
- `Fnv`: 64-bit FNV-1, as defined in section 2 of the IETF draft
  draft-eastlake-fnv.
- `Wrappers`: `Option`.

Modelling choices:

- **Nil.** Go's nil interface value is the `Nil` variant of `Object`, and a
  nil expression or statement is `None` or `NilLet`. On the evaluation
  path (the `Eval` methods and the builtins) every place where Go calls a
  method on nil is kept as an `Abort(Panic)`. `Objects.Inspect` and the
  `TokenLiteral` functions of `Ast` instead require their argument not to
  be nil; see "Left out".
- **Aborts.** An evaluation result is an `Outcome`. `Normal(v)` is a
  value; `Abort(reason)` means no value comes back. The reasons are:
  - `Panic`: a Go runtime panic. This covers a nil dereference, integer
    division by zero, and the zero-argument call to a user function that
    indexes an empty slice.
  - `FuelExhausted`: the model's bound on nested user-function calls was
    reached.
  - `PointerIdentity`: `==`/`!=` on two values whose Go answer is
    pointer identity.
- **Fuel.** Evaluation is a family of methods. Each call into a user
  function's body spends one unit of `fuel`.
- **Ghost heap.** Every evaluation method carries a ghost `heap`. This
  set holds the environments, arrays and hash maps reachable from the
  program, and `Closed` keeps it closed under references. Each method
  proves that it writes no environment except the current one.
- **Reference semantics.** Each evaluation method also returns, as a
  ghost `Run`, a record of what it evaluated: the runs of its parts, the
  frame a call created, the stores it left and its outcome. Predicates such
  as `StatementRun`, `InfixRun` and `ApplyRun` say, node by node and in
  the source's order of evaluation, when a run evaluates a node from given
  stores; the methods are proved to produce such runs.
- **NUL.** A NUL character scans as an EOF token, just as the end of the
  input does. The lexer still steps past it, so scanning resumes after it;
  the parser's skip loops read on past such an EOF.
- **Skip loops.** The parser's `let` and `return` skip loops spin
  forever at end of input when no `;` comes. The model stops in that
  state and says so in a `hangs` result.

## Model

| member | source | states |
|---|---|---|
| MachineInt.Wrap | evaluator/evaluator.go:158-169 | the int64 result is congruent to the exact result modulo 2^64, and equal to it when it fits |
| MachineInt.ToUnsignedInjective | object/object.go:194-196 | reading an int64 as uint64 keeps distinct values distinct |
| MachineInt.TruncatedDivision | evaluator/evaluator.go:166-167 | the remainder is smaller than the divisor in magnitude and never has the opposite sign of the dividend (rounding toward zero) |
| MachineInt.QuotientMagnitude | evaluator/evaluator.go:166-167 | the truncated quotient is no larger in magnitude than the dividend |
| MachineInt.Div64 | evaluator/evaluator.go:166-167 | int64 division is the truncated quotient, except MIN_INT64 / -1, which wraps to MIN_INT64 |
| MachineInt.DivisionTruncatesTowardZero | evaluator/evaluator.go:166-167 | 7/2 = 3, -7/2 = -3, 7/-2 = -3, -7/-2 = 3, and MIN_INT64 / -1 = MIN_INT64 |
| Strconv.ParseInt | parser/parser.go:181-195 | base 0 on a digit string: succeeds iff the string is non-empty, a leading 0 is followed by octal digits only, and the value fits int64; the value is the digits read in base 8 or 10 |
| Strconv.FormatInt | object/object.go:39-41 | `%d` text: decimal digits with no leading zero, or '-' and digits |
| Strconv.FormatIntValue | object/object.go:39-41 | the digits of the decimal text read back as the number |
| Strconv.ParseFormattedInt | parser/parser.go:184 | parsing the decimal text of a non-negative int64 gives it back |
| Strconv.Quote | parser/parser.go:186-188 | `%q` of a digit string is the string between double quotes |
| Strconv.LeadingZeroIsOctal | parser/parser.go:184 | "0" parses to 0, "017" to 15, and "08" is rejected |
| Utf8.EncodeRune | evaluator/builtins.go:17 | one to four bytes depending on the code point, and they decode back to it |
| Utf8.EncodeAppend | object/object.go:203-207 | encoding a concatenation concatenates the encodings |
| Utf8.EncodedLength | evaluator/builtins.go:17 | a string has at least as many bytes as characters, with equality iff it is ASCII |
| Fnv.FoldAppend | object/object.go:203-207 | hashing a + b equals hashing a and then continuing over b |
| Tokens.LookupIdentifier | token/token.go:62-68 | the result is IDENT or a keyword kind; it is a keyword kind exactly when the word is that keyword's spelling |
| Tokens.LookupSpelling | token/token.go:52-60 | each keyword's spelling looks up to that keyword |
| Tokens.KeywordTable | token/token.go:52-60 | fn, let, true, false, if, else and return map to FUNCTION, LET, TRUE, FALSE, IF, ELSE and RETURN |
| Tokens.NonKeywords | token/token.go:67 | "while", "", "Let" and "x" are identifiers |
| Tokens.Name | token/token.go:11-50 | the Go string of each token kind |
| Tokens.NameInjective | token/token.go:11-50 | distinct token kinds have distinct names |
| Lexing.IsLetter | lexer/lexer.go:133-135 | ASCII letters and `_`; never a digit or whitespace |
| Lexing.IsDigit | lexer/lexer.go:137-139 | ASCII digits; never whitespace |
| Lexing.NewToken | lexer/lexer.go:174-176 | a one-character token of the given kind |
| Lexing.RunEnd | lexer/lexer.go:127-172 | the end of the maximal run of a character class: everything before is in the class, the character at the end is not |
| Lexing.Scan | lexer/lexer.go:42-125 | every token moves past at least one character and is well formed (keywords spelled as keywords, IDENT letters, INT digits, EOF empty); only string literals hold whitespace; EOF iff the first non-blank character is NUL or past the end; past the end, EOF again |
| Lexing.MaximalMunch | lexer/lexer.go:48-55 | `=`, `!`, `<` and `>` take a following `=` into EQ, NOT_EQ, LT_EQ and GT_EQ, and otherwise stand alone |
| Lexing.IdentifierIsMaximalRun | lexer/lexer.go:110-113 | an identifier is the maximal run of letters and underscores, with the kind the keyword lookup gives |
| Lexing.NumberIsMaximalRun | lexer/lexer.go:114-117 | a number is the maximal run of ASCII digits, kind INT |
| Lexing.StringLiteral | lexer/lexer.go:101-105 | a string literal is the characters strictly between the quotes, none of them a quote or NUL; the closing quote is consumed; unterminated, it runs to the end of the input |
| Lexing.StringLiteralAt | lexer/lexer.go:101-105 | the same facts for a literal whose opening quote is at a given position |
| Lexing.StringBodyRun | lexer/lexer.go:153-160 | the body of a string runs up to the first quote or NUL, and to the end of the input when neither follows |
| Lexing.NulIsEndOfFile | lexer/lexer.go:106-124 | NUL and the end of the input read as EOF with an empty literal, and scanning resumes one character further on |
| Lexing.IllegalCharacter | lexer/lexer.go:118-123 | any other character is a one-character ILLEGAL token |
| Lexing.Lexer.New | lexer/lexer.go:16-21 | a new lexer stands on the first character, with readPosition = position + 1 |
| Lexing.Lexer.ReadChar | lexer/lexer.go:23-32 | moves to readPosition; ch is the character there, or NUL past the end |
| Lexing.Lexer.PeekChar | lexer/lexer.go:34-40 | the character at readPosition, or NUL past the end |
| Lexing.Lexer.SkipWhitespace | lexer/lexer.go:127-131 | stops at the end of the whitespace run |
| Lexing.Lexer.ReadIdentifier | lexer/lexer.go:142-150 | returns the letter run and stops after it |
| Lexing.Lexer.ReadString | lexer/lexer.go:153-161 | returns the characters after the quote up to the closing quote or NUL |
| Lexing.Lexer.ReadNumber | lexer/lexer.go:164-172 | returns the digit run and stops after it |
| Lexing.Lexer.NextToken | lexer/lexer.go:42-125 | the token and the new position are exactly `Scan` of the input at the old position |
| Lexing.Lexer.ReadOperator | lexer/lexer.go:48-55 | on `=`, `!`, `<` or `>` the token (one or two characters, `==`/`!=`/`<=`/`>=` when `=` follows) and the new position are exactly `Scan` at the old position |
| Lexing.Lexer.ReadOther | lexer/lexer.go:101-120 | strings, end of input, identifiers, numbers and illegal characters are scanned exactly as `Scan` at the old position says |
| Ast.Program.TokenLiteral | ast/ast.go:23-29 | the first statement's token literal, or "" for an empty program |
| Ast.Identifier.TokenLiteral | ast/ast.go:38-40 | the identifier token's literal |
| Ast.LetStatement.TokenLiteral | ast/ast.go:49-51 | the `let` token's literal |
| Ast.Statement.TokenLiteral | ast/ast.go:25 | the literal of the statement's first token; undefined on the nil let, where Go dereferences nil |
| Ast.Expression.TokenLiteral | ast/ast.go:38-40 | the literal of the expression's first token |
| Parsing.Parser.New | parser/parser.go:39-55 | curr and peek are the lexer's first two tokens, scanned from its position, and there are no errors |
| Parsing.Parser.NextToken | parser/parser.go:76-79 | peek becomes curr and the next scanned token becomes peek; errors unchanged; the scan position of curr strictly advances |
| Parsing.Parser.Err | parser/parser.go:66-70 | appends "expected next token to be K, got P instead" |
| Parsing.Parser.NoPrefixFnError | parser/parser.go:209-212 | appends "no prefix parse function for K found" |
| Parsing.Parser.ExpectPeek | parser/parser.go:172-179 | true iff peek has the kind; then it advances one token (the scan positions move up by one) and adds no error; otherwise it appends the message and changes nothing else |
| Parsing.Parser.ParseProgram | parser/parser.go:81-95 | the statements, the diagnostics added and the hang are exactly those of `ProgramAt` from the starting position; statement `i` is `StatementAt` at `at[i]`, which left the parser at `ends[i]`, and the next one starts at the token after it, so the statements are in source order with nothing skipped between them; without a hang the parse ends on EOF |
| Parsing.Parser.ParseStatement | parser/parser.go:98-107 | the statement, the diagnostics added, the position the parser is left at and the hang are those of `StatementAt` from the current token |
| Parsing.Parser.ParseLetStatement | parser/parser.go:109-128 | the statement, the diagnostics added, the position left at and the hang are those of `LetAt` from the current token |
| Parsing.Parser.ParseReturnStatement | parser/parser.go:130-141 | the statement, the (no) diagnostics, the position left at and the hang are those of `ReturnAt` from the current token |
| Parsing.Parser.ParseExpressionStatement | parser/parser.go:143-153 | the statement, the diagnostics added and the position left at are those of `ExpressionStatementAt` from the current token |
| Parsing.Parser.ParseExpression | parser/parser.go:155-166 | the expression, the diagnostics added and the position of its last token are those of `ExprAt` from the current token |
| Parsing.Parser.ParseIntegerLiteral | parser/parser.go:181-195 | the literal's base-0 value, or nil and "could not parse "lit" as integer" |
| Parsing.Parser.ParsePrefixExpression | parser/parser.go:197-207 | the prefix node, the diagnostics added and the position left at are those of `ExprAt` from the operator token, whose operand is `ExprAt` from the next token |
| Parsing.Parser.ParseIdentifier | parser/parser.go:168-170 | an identifier node of the current token with its literal as name |
| Parsing.ExprAt | parser/parser.go:155-207 | the expression read from a position: an identifier or integer alone, `!`/`-` with the expression at the next token as operand, nil with the no-prefix diagnostic otherwise; it starts with the token scanned there, ends no earlier, and adds at most one diagnostic, exactly one when it is nil |
| Parsing.SkipAt | parser/parser.go:123-125 | where a skip loop stops: at or after its start, on a `;` or where the parser is stuck at end of input |
| Parsing.Skipped | parser/parser.go:136-140 | a skipped statement adds no diagnostic and hangs iff its skip loop did not stop on a `;`, and then the parser is stuck |
| Parsing.LetAt | parser/parser.go:109-128 | a let (no diagnostic, ending on its `;` unless it hangs) or the nil let with exactly one diagnostic and no hang |
| Parsing.ReturnAt | parser/parser.go:130-141 | a return of the `return` token with no value and no diagnostic, ending past its start on the first `;` unless it hangs |
| Parsing.ExpressionStatementAt | parser/parser.go:143-153 | the expression statement of the start token and `ExprAt`'s expression and diagnostics, ending on the expression's last token or on the `;` right after it |
| Parsing.StatementAt | parser/parser.go:98-107 | a statement of the kind its first token calls for, with that token's literal; it ends no earlier than it starts, on its `;` for a let or return, or is stuck if it hangs; a nil let carries one diagnostic |
| Parsing.ProgramAt | parser/parser.go:81-95 | the program read from a position: no more statements than characters left, since each takes at least one |
| Parsing.ProgramFrom | parser/parser.go:81-95 | the parse loop over any forward-moving scanner and statement reader: it stops at EOF or at a statement that hangs, otherwise keeps the statement and resumes at the token after it; the statement count is bounded by the input left |
| Parsing.Parser.SkipToSemicolon | parser/parser.go:123-125 | the parser stops where `SkipAt` says, adds no diagnostic, and hangs iff it is not on a `;`, in which case it is stuck |
| Parsing.ConsecutiveProgram | parser/parser.go:85-92 | reading a program from the start of consecutive statements yields exactly those statements and their diagnostics, then whatever is read from where they leave off |
| Parsing.ProgramOf | parser/parser.go:85-95 | when the loop ends after consecutive statements, because EOF follows or the next statement hangs, the program read is exactly those statements, with the hanging statement's diagnostics added and the hang set in the second case |
| Parsing.TwoWordsTwoStatements | parser/parser.go:143-170 | `a b` parses to two expression statements, `a` and `b`, with no diagnostics and no hang: an identifier leaves the parser on its own token |
| Parsing.ConsecutiveExtend | parser/parser.go:85-92 | one more statement, starting where the previous one resumed, keeps the statements consecutive |
| Parsing.EndsBefore | parser/parser.go:85-92 | when every scan advances, each statement ends before any later one starts |
| Parsing.InSourceOrder | parser/parser.go:85-92 | consecutive statements over the lexer's scan are in source order and do not overlap |
| Environments.Environment.New | object/environment.go:12-15 | an empty store with no outer frame |
| Environments.Environment.Enclosed | object/environment.go:17-21 | an empty store whose outer is the given frame; the chain is the outer chain plus the new frame |
| Environments.Environment.OutersAreDeeper | object/environment.go:17-21 | the chain is acyclic: every outer frame is strictly shallower |
| Environments.Environment.Get | object/environment.go:23-29 | the local binding shadows outer ones; none only when no frame binds the key; the answer is the chain's combined bindings |
| Environments.Environment.Set | object/environment.go:31-34 | writes only the local entry, `store == old(store)[key := value]`, and returns the value |
| Environments.Environment.SetRebinds | object/environment.go:23-34 | after a Set, Get gives the value for its key and every other key reads as before |
| Objects.Type | object/object.go:14-26 | ERROR, RETURN_VALUE, INTEGER and STRING tags are given exactly to their own variants |
| Objects.TypeIdentifiesVariant | object/object.go:14-26 | two values have the same type tag exactly when they are the same variant |
| Objects.Inspect | object/object.go:39-165 | the display text of integers, strings, booleans, NULL, return values, errors, builtins, arrays and pairs |
| Objects.InspectAll | object/object.go:139-152 | the texts of the elements joined by ", " |
| Objects.InspectAllAppend | object/object.go:139-152 | joining with ", " adds one separator per further element |
| Objects.InspectInteger | object/object.go:39-41 | an integer's text parses back to it; a negative one is '-' and the magnitude |
| Objects.HashCode | object/object.go:194-207 | the hash code of an integer, boolean or string |
| Objects.StringHashCode | object/object.go:203-207 | FNV-1 64 of the UTF-8 bytes |
| Objects.IntegerHashCode | object/object.go:194-196 | integer codes are the two's-complement bits; distinct integers never collide |
| Objects.BooleanHashCode | object/object.go:197-202 | true hashes to 1 and false to 0, like the integers 1 and 0 |
| Objects.StringHashCodeAppend | object/object.go:203-207 | the string code is FNV-1 over the UTF-8 bytes, so it continues over an appended string |
| Objects.HelloCode | object/object.go:203-207 | the code of "Hello" is 0xfa365282a44c0ba7 |
| Objects.WorldCode | object/object.go:203-207 | the code of "World" is the FNV-1 64 value of its five bytes |
| Builtins.Lookup | evaluator/builtins.go:8 | exactly the six table names are builtins |
| Builtins.Len | evaluator/builtins.go:9-24 | a string's byte count, an array's element count, the argument-count error, or "argument to `len` not supported" |
| Builtins.LenCountsBytes | evaluator/builtins.go:17 | a string's length is at least its character count, and equals it iff the string is ASCII |
| Builtins.Push | evaluator/builtins.go:25-39 | a fresh array of the elements plus the value; errors for a wrong count or a non-array |
| Builtins.Pop | evaluator/builtins.go:40-61 | removes and returns the last element in place; NULL for an empty array, which is unchanged; errors change nothing |
| Builtins.Keys | evaluator/builtins.go:62-81 | a fresh array with one key per stored entry, each entry exactly once |
| Builtins.Delete | evaluator/builtins.go:82-104 | removes just the entry at the key's hash code and returns NULL; "unusable as a hashkey" for other keys |
| Builtins.DeleteIdempotent | evaluator/builtins.go:93-102 | deleting twice is deleting once, and deleting an absent key changes nothing |
| Builtins.Print | evaluator/builtins.go:105-112 | the result is NULL; the printed text is not modelled |
| Evaluator.IsTruthy | evaluator/evaluator.go:248-257 | only FALSE and NULL are falsy |
| Evaluator.FalsyValues | evaluator/evaluator.go:248-257 | exactly FALSE and NULL are falsy; 0, "" and nil are truthy |
| Evaluator.NativeBool | evaluator/evaluator.go:241-246 | one of the two interned booleans, with the given truth |
| Evaluator.IsError | evaluator/evaluator.go:263-268 | true exactly for return values; IsErrorTestsTag proves it equal to the source's tag test |
| Evaluator.IsErrorTestsTag | evaluator/evaluator.go:263-268 | `isError` as written (non-nil and tagged RETURN_VALUE) holds exactly for return values |
| Evaluator.Unwrap | evaluator/evaluator.go:282-287 | a return value unwraps to the value it holds; anything else is unchanged |
| Evaluator.Bang | evaluator/evaluator.go:106-117 | `!x` is TRUE exactly when x is not truthy |
| Evaluator.Minus | evaluator/evaluator.go:120-126 | int64 negation with wrap-around; "unknown operator: -T" for other types; a panic on nil |
| Evaluator.MinusInvolution | evaluator/evaluator.go:120-126 | negating twice gives back every int64, MIN_INT64 included |
| Evaluator.PrefixResult | evaluator/evaluator.go:95-102 | `!` gives NativeBool of not truthy; `-` on an integer is wrapping negation; any other pairing is "unknown operator: <op><T>", or a panic on nil; results refer to no heap object and are never return values |
| Evaluator.IntegerInfix | evaluator/evaluator.go:158-179 | + - * agree with exact arithmetic modulo 2^64; < > == != give the interned booleans for the comparison; any other operator gives NULL |
| Evaluator.InfixResult | evaluator/evaluator.go:128-156 | infix results refer to no heap object and are never return values |
| Evaluator.Identical | evaluator/evaluator.go:147-150 | Go's `==` on interface values where it is decided by value: when answered, true iff the two are the same value; unanswered only for two values of one variant compared by pointer |
| Evaluator.MismatchedOperands | evaluator/evaluator.go:147-154 | different types: `==` is FALSE and `!=` is TRUE, decided before the type check; other operators give "type mismatch: L op R" |
| Evaluator.IntegerOperands | evaluator/evaluator.go:138-142 | two integers go to the integer operators; a zero divisor panics |
| Evaluator.StringOperands | evaluator/evaluator.go:143-155 | `+` concatenates; other operators except `==`/`!=` are "unknown operator: STRING op STRING" |
| Evaluator.BooleanOperands | evaluator/evaluator.go:147-155 | booleans compare by value under `==`/`!=`; other operators are unknown |
| Evaluator.EvalIdentifier | evaluator/evaluator.go:229-239 | the chain's binding, else the builtin of that name, else "identifier not found: NAME" |
| Evaluator.BlockTestsTags | evaluator/evaluator.go:78-80 | the block's stop test on tags holds exactly for return values and errors, the variants the program's type switch tests |
| Evaluator.BindPositional | evaluator/evaluator.go:213-217 | each parameter is bound to the argument at its last position |
| Evaluator.BindDomain | evaluator/evaluator.go:213-217 | the frame binds exactly the parameter names |
| Evaluator.SnapshotBindings | object/environment.go:23-29 | the stores of a closed heap give, along each chain, the bindings Get reads |
| Evaluator.LetThenLookup | evaluator/evaluator.go:41-49 | after a let that goes on, the name evaluates to the bound value |
| Evaluator.LetValueBindsToo | evaluator/evaluator.go:41-47 | `let x = if (true) { let y = 1 }` binds both y and x: a let binds over the store its value left, not the one it started from |
| Evaluator.Resolve | evaluator/evaluator.go:229-239 | a name's binding, else its builtin, else "identifier not found: NAME" |
| Evaluator.ExprRun | evaluator/evaluator.go:15-56 | a missing expression is nil; a present one runs as NodeRun |
| Evaluator.NodeRun | evaluator/evaluator.go:21-53 | literals, identifiers and function literals settle at once, an identifier resolving against its chain as the stores hold it; the other nodes by their own runs |
| Evaluator.PrefixRun | evaluator/evaluator.go:89-103 | the operand first; a return value stops it; then PrefixResult |
| Evaluator.InfixRun | evaluator/evaluator.go:128-137 | the right operand, then the left from the stores it left, each stopping at a return value; then InfixResult |
| Evaluator.Chosen | evaluator/evaluator.go:187-193 | the consequence on a truthy condition, else the alternative, if any |
| Evaluator.IfRun | evaluator/evaluator.go:181-194 | the condition, then the chosen block from the stores it left, or NULL |
| Evaluator.ArgsRun | evaluator/evaluator.go:270-280 | arguments left to right, each from the stores the last left, stopping after a return value |
| Evaluator.ArgsOutcome | evaluator/evaluator.go:270-280 | all the values, or the first return value alone |
| Evaluator.CallRun | evaluator/evaluator.go:196-200 | the arguments, then the callee from the stores they left, then the call |
| Evaluator.Refused | evaluator/evaluator.go:200-224 | nil panics; a user function with no arguments panics, with too many or too few gets the error; a non-function gets "not a function: T" |
| Evaluator.ApplyRun | evaluator/evaluator.go:200-225 | a user function with as many arguments as parameters runs its body in a fresh frame enclosing its environment and binding the parameters, on one unit of fuel less, and unwraps the result; any other call changes no store |
| Evaluator.BuiltinOutcome | evaluator/builtins.go:8-112 | what each builtin answers, as far as it does not depend on array or map elements |
| Evaluator.SequenceRun | evaluator/evaluator.go:73-86 | statements in order, each from the stores the last left, stopping after the first that does not proceed |
| Evaluator.BlockRun | evaluator/evaluator.go:73-86 | a block gives its last statement's outcome, a return value still wrapped; empty, nil |
| Evaluator.ProgramRun | evaluator/evaluator.go:58-71 | a program is a sequence whose final return value is unwrapped |
| Evaluator.StatementRun | evaluator/evaluator.go:19-47 | expression statements and blocks; return wraps a value that goes on; let binds it in its own frame over the stores the value left; the nil let panics |
| Evaluator.EvalProgram | evaluator/evaluator.go:58-71 | the run is a ProgramRun: statements run in order, each from the stores the one before left, up to the first return value (unwrapped) or error; no later statement runs; only `env` among existing environments changes |
| Evaluator.EvalStatements | evaluator/evaluator.go:73-86 | the run is a BlockRun: statements in order up to the first return value (kept wrapped) or error; an empty block gives nil |
| Evaluator.SequenceEnds | evaluator/evaluator.go:73-86 | a statement loop that ran out of statements, or stopped at one that did not proceed, ran the whole sequence |
| Evaluator.StatementsRanExtend | evaluator/evaluator.go:76-82 | one more statement run from where the last one ended extends the prefix of statements that ran |
| Evaluator.EvalStatementAt | evaluator/evaluator.go:76-82 | the next statement of a sequence, run from the stores the ones before it left |
| Evaluator.EvalStatement | evaluator/evaluator.go:15-56 | the run is a StatementRun: return wraps its expression's value, let binds the name in `env` over the store the value left, the nil let panics |
| Evaluator.SetBinding | evaluator/evaluator.go:46 | binds in the current frame, changes no other store, and keeps the heap closed |
| Evaluator.EvalExpression | evaluator/evaluator.go:15-56 | the run is an ExprRun of the expression; a missing expression is nil |
| Evaluator.EvalNode | evaluator/evaluator.go:21-53 | the run is a NodeRun: literals, identifiers and function literals at once, the other nodes by their own evaluation |
| Evaluator.EvalPrefixExpression | evaluator/evaluator.go:89-103 | the run is a PrefixRun: the operand's evaluation, then PrefixResult unless it is a return value |
| Evaluator.EvalInfixExpression | evaluator/evaluator.go:128-156 | the run is an InfixRun: the right operand first, the left one from the stores it left and only if the right is not a return value, then InfixResult |
| Evaluator.EvalIfExpression | evaluator/evaluator.go:181-194 | the run is an IfRun: the condition, then the block Chosen picks run from the stores it left, else NULL |
| Evaluator.EvalExpressions | evaluator/evaluator.go:270-280 | the run is an ArgsRun: the arguments evaluated left to right, each from the stores the last left, up to the first return value; the result is ArgsOutcome of those runs |
| Evaluator.ArgumentsEnd | evaluator/evaluator.go:270-280 | an argument loop that ran out of arguments, or stopped at a return value, ran the whole list |
| Evaluator.ArgumentsRanExtend | evaluator/evaluator.go:272-278 | one more argument evaluated from where the last one ended extends the prefix that ran |
| Evaluator.EvalArgument | evaluator/evaluator.go:272-278 | the next argument, evaluated from the stores the ones before it left |
| Evaluator.NewFrame | evaluator/evaluator.go:213-217 | a fresh frame whose outer is the closure's environment, with the parameters bound positionally |
| Evaluator.BindExtend | evaluator/evaluator.go:213-217 | binding one more parameter updates the frame with exactly that name and argument |
| Evaluator.SnapshotRebind | evaluator/evaluator.go:46 | setting one environment's store changes only its entry among the stores |
| Evaluator.ApplyFunction | evaluator/evaluator.go:213-220 | the body runs as a BlockRun in a frame that did not exist before, encloses the closure's environment and binds the parameters; the result is the body's value unwrapped; no existing environment changes |
| Evaluator.CallFunction | evaluator/evaluator.go:201-220 | the call is an ApplyRun: zero arguments panic, then "too many arguments", "not enough arguments", then the body |
| Evaluator.ApplyBuiltin | evaluator/evaluator.go:221-222 | the builtin of that name with its full effect (len, push, pop, keys, delete, print as the Builtins contracts state) and no store changed |
| Evaluator.PushInHeap | evaluator/builtins.go:25-39 | push as Builtins.Push states it, keeping the heap closed and every store |
| Evaluator.KeysInHeap | evaluator/builtins.go:62-81 | keys as Builtins.Keys states it, keeping the heap closed and every store |
| Evaluator.PopInHeap | evaluator/builtins.go:40-61 | pop as Builtins.Pop states it, in place, keeping the heap closed |
| Evaluator.DeleteInHeap | evaluator/builtins.go:82-104 | delete as Builtins.Delete states it, in place, keeping the heap closed |
| Evaluator.Apply | evaluator/evaluator.go:200-225 | the call is an ApplyRun: user functions run their body, builtins give BuiltinOutcome with their full effect, nil panics, anything else is "not a function: T" |
| Evaluator.EvalCallExpression | evaluator/evaluator.go:196-227 | the run is a CallRun: the arguments before the callee, then the call of the callee's value |

## Left out

- `main.go` and `repl/repl.go`: file and terminal I/O.
- Builtins.Print: returns NULL. What it writes to standard output is not modelled, nor its panic when an argument is nil.
- Evaluator.ApplyBuiltin: calls `print` through `Builtins.Print`, so the same output and nil panic are not modelled.
- Objects.Inspect: nil elements are excluded by its precondition. In Go, the text of a return value or an array that holds nil is a nil dereference.
- Ast.Program.TokenLiteral: a program whose first statement is the nil let is excluded by its precondition. Go dereferences nil there.
- Ast.Statement.TokenLiteral: the nil let is excluded by its precondition, for the same reason.
- Objects.Inspect: not defined for hash maps and functions. A map's text depends on Go's map iteration order. A function's text needs the AST `String` methods, which are not part of this model.
- `Environment.String`: it depends on map iteration order.
- Builtins.Keys: the result order is not modelled. The ghost `order` is some enumeration of the stored hash codes.
- `registerInfix`: never called, and it writes into a map that is never made.
- Builtins.Push: Go's `append` may share the backing array of its argument. Two pushes onto the same array can then see each other's last element. The model gives every push its own fresh array.
- Evaluator.EvalCallExpression: recursion through user functions is bounded by `fuel`. A run that needs more than `fuel` nested calls ends in `Abort(FuelExhausted)`, where Go would continue or overflow its stack.
- Evaluator.InfixResult: `==` and `!=` on two strings, errors, functions, return values or pairs (and on two integers, which never reaches this case) compare Go pointers. They end in `Abort(PointerIdentity)`. Identity is modelled only where it coincides with value:
  - booleans and NULL, which are interned;
  - builtins, which are one table entry each;
  - arrays and hash maps, which are Dafny objects.
- Strconv.ParseInt: it covers only digit strings, the only INT literals the lexer makes. Signs, underscores and `0x`/`0b`/`0o` prefixes are not modelled.
- Tokens.Name: token/token.go lacks the kinds LBRACKET, RBRACKET, LT_EQ, GT_EQ and STRING that lexer/lexer.go uses. Their names are taken as "[", "]", "<=", ">=" and "STRING".
- Evaluator.BuiltinOutcome: the reference semantics does not record the elements of arrays and hash maps. For `len` of an array it says only that an integer comes back; for `push`, `pop` and `keys` on the right argument, only the kind of result. The full effect is stated by `BuiltinEffect`, which `Apply` and `ApplyBuiltin` ensure.
- Ast: pointer fields that are never nil in parsed programs (a block, a parameter, a function's environment) are plain values.
- Builtins.Len: the byte count is converted to int64 with `Wrap`, as Go's `int64(len(...))` does. It only matters beyond 2^63 bytes.
- Parsing.Parser.ParseProgram: where the source loops forever, the model returns with `hangs` set. This happens in a `let` or `return` with no `;` before the end of input.
- Division by zero and the zero-argument call to a user function are modelled as `Abort(Panic)` outcomes, not as preconditions.
