/**
 * Tokens: a kind and the literal text. Go's `TokenType` is a string; here the
 * kinds are an enumeration and `Name` gives the string each one stands for,
 * which is what diagnostics print. The kinds LBRACKET, RBRACKET, LT_EQ, GT_EQ
 * and STRING are used by the lexer but not declared in token/token.go; they
 * are given the names "[", "]", "<=", ">=" and "STRING".
 */
module Tokens {

  datatype TokenType =
    | ILLEGAL | EOF
    // Identifiers and literals
    | IDENT | INT | STRING
    // Operators
    | ASSIGN | PLUS | MINUS | BANG | ASTERISK | SLASH
    | LT | GT | EQ | NOT_EQ | LT_EQ | GT_EQ
    // Delimiters
    | COMMA | SEMICOLON | LPAREN | RPAREN | LBRACE | RBRACE | LBRACKET | RBRACKET
    // Keywords
    | FUNCTION | LET | TRUE | FALSE | IF | ELSE | RETURN

  datatype Token = Token(tokenType: TokenType, literal: string)

  /** The string value of each kind. */
  function Name(t: TokenType): string
  {
    match t
    case ILLEGAL => "ILLEGAL"
    case EOF => "EOF"
    case IDENT => "IDENT"
    case INT => "INT"
    case STRING => "STRING"
    case ASSIGN => "="
    case PLUS => "+"
    case MINUS => "-"
    case BANG => "!"
    case ASTERISK => "*"
    case SLASH => "/"
    case LT => "<"
    case GT => ">"
    case EQ => "=="
    case NOT_EQ => "!="
    case LT_EQ => "<="
    case GT_EQ => ">="
    case COMMA => ","
    case SEMICOLON => ";"
    case LPAREN => "("
    case RPAREN => ")"
    case LBRACE => "{"
    case RBRACE => "}"
    case LBRACKET => "["
    case RBRACKET => "]"
    case FUNCTION => "FUNCTION"
    case LET => "LET"
    case TRUE => "TRUE"
    case FALSE => "FALSE"
    case IF => "IF"
    case ELSE => "ELSE"
    case RETURN => "RETURN"
  }

  /** Different kinds have different names, so a diagnostic that names a kind identifies it. */
  lemma NameInjective(a: TokenType, b: TokenType)
    ensures Name(a) == Name(b) ==> a == b
  {
  }

  /** The keyword table: spelling to kind. */
  const Keywords: map<string, TokenType> := map[
    "fn" := FUNCTION,
    "let" := LET,
    "true" := TRUE,
    "false" := FALSE,
    "if" := IF,
    "else" := ELSE,
    "return" := RETURN
  ]

  predicate IsKeyword(t: TokenType) {
    t.FUNCTION? || t.LET? || t.TRUE? || t.FALSE? || t.IF? || t.ELSE? || t.RETURN?
  }

  /** How each keyword kind is written: the inverse of the keyword table. */
  function Spelling(t: TokenType): string
    requires IsKeyword(t)
  {
    match t
    case FUNCTION => "fn"
    case LET => "let"
    case TRUE => "true"
    case FALSE => "false"
    case IF => "if"
    case ELSE => "else"
    case RETURN => "return"
  }

  /**
   * The kind of a word the lexer read: a keyword kind exactly when the word
   * is that keyword's spelling (case-sensitively), IDENT for every other word.
   */
  function LookupIdentifier(identifier: string): (r: TokenType)
    ensures r == IDENT || (IsKeyword(r) && Spelling(r) == identifier)
    ensures r == IDENT <==> forall t | IsKeyword(t) :: Spelling(t) != identifier
  {
    if identifier in Keywords then Keywords[identifier] else IDENT
  }

  /** Looking up a keyword's spelling gives back the keyword. */
  lemma LookupSpelling(t: TokenType)
    requires IsKeyword(t)
    ensures LookupIdentifier(Spelling(t)) == t
  {
  }

  lemma KeywordTable()
    ensures LookupIdentifier("fn") == FUNCTION && LookupIdentifier("let") == LET
    ensures LookupIdentifier("true") == TRUE && LookupIdentifier("false") == FALSE
    ensures LookupIdentifier("if") == IF && LookupIdentifier("else") == ELSE
    ensures LookupIdentifier("return") == RETURN
  {
    LookupSpelling(FUNCTION);
    LookupSpelling(LET);
    LookupSpelling(TRUE);
    LookupSpelling(FALSE);
    LookupSpelling(IF);
    LookupSpelling(ELSE);
    LookupSpelling(RETURN);
  }

  /** Words that are not keywords, including near-misses in case and the empty word, are identifiers. */
  lemma NonKeywords()
    ensures LookupIdentifier("while") == IDENT
    ensures LookupIdentifier("") == IDENT
    ensures LookupIdentifier("Let") == IDENT
    ensures LookupIdentifier("x") == IDENT
  {
  }
}
