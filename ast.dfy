/**
 * The syntax tree. ast/ast.go declares `Program`, `Identifier` and
 * `LetStatement`; the other node kinds are the ones the parser and the
 * evaluator build and inspect. A field of Go interface type, which may hold
 * nil, is an `Option`; pointer fields (a block, a parameter) are never nil
 * here. `NilLet` is the nil `*LetStatement` the parser returns for a
 * malformed `let`, which still occupies a slot in the program.
 */
module Ast {
  import opened Wrappers
  import opened Tokens
  import opened MachineInt

  datatype Identifier = Identifier(token: Token, value: string)
  {
    function TokenLiteral(): string {
      token.literal
    }
  }

  datatype LetStatement = LetStatement(token: Token, identifier: Identifier, value: Option<Expression>)
  {
    function TokenLiteral(): string {
      token.literal
    }
  }

  datatype BlockStatement = BlockStatement(token: Token, statements: seq<Statement>)

  datatype Expression =
    | Ident(identifier: Identifier)
    | IntegerLiteral(token: Token, intValue: int64)
    | StringLiteral(token: Token, stringValue: string)
    | BooleanLiteral(token: Token, boolValue: bool)
    | PrefixExpression(token: Token, operator: string, right: Option<Expression>)
    | InfixExpression(token: Token, left: Option<Expression>, operator: string, right: Option<Expression>)
    | IfExpression(token: Token, condition: Option<Expression>, consequence: BlockStatement, alternative: Option<BlockStatement>)
    | FunctionLiteral(token: Token, parameters: seq<Identifier>, body: BlockStatement)
    | CallExpression(token: Token, fn: Option<Expression>, arguments: seq<Option<Expression>>)
  {
    /** The token the expression starts with. */
    function StartToken(): Token {
      if Ident? then identifier.token else token
    }

    function TokenLiteral(): string {
      StartToken().literal
    }
  }

  datatype Statement =
    | Let(letStatement: LetStatement)
    | NilLet
    | ReturnStatement(token: Token, returnValue: Option<Expression>)
    | ExpressionStatement(token: Token, expression: Option<Expression>)
    | Block(block: BlockStatement)
  {
    /** Calling a method on the nil `*LetStatement` is a nil dereference in Go. */
    function TokenLiteral(): string
      requires !NilLet?
    {
      match this
      case Let(s) => s.TokenLiteral()
      case ReturnStatement(token, _) => token.literal
      case ExpressionStatement(token, _) => token.literal
      case Block(b) => b.token.literal
    }
  }

  datatype Program = Program(statements: seq<Statement>)
  {
    function TokenLiteral(): string
      requires |statements| > 0 ==> !statements[0].NilLet?
    {
      if |statements| > 0 then statements[0].TokenLiteral() else ""
    }
  }
}
