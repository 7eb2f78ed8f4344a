/** Token kinds and tokens of MACSLang (MACSLang.Lexer/TokenType.cs, Token.cs). */
module Tokens {

  /** The token kinds, in the declaration order of the source enum. The first one, `Var`,
      is also the value an unset `TokenType` field holds in the source (the enum default). */
  datatype TokenType =
    // keywords
    | Var | Func | IntKeyword | FloatKeyword | CharKeyword | BoolKeyword | StringKeyword
    | If | Else | While | For | Return | Print | Input | True | False
    // operators
    | Assign | Plus | Minus | Multiply | Divide | Modulo | Equals | NotEquals
    | LessThan | GreaterThan | LessEqual | GreaterEqual | And | Or | Not
    // delimiters
    | OpenParen | CloseParen | OpenBrace | CloseBrace | Semicolon | Colon | Comma
    // literals and names
    | Identifier | IntLiteral | FloatLiteral | CharLiteral | StringLiteral
    // end of input and lexical anomalies
    | EOF | Unknown

  /** A token: kind, lexeme and the line and column where it starts. */
  datatype Token = Token(kind: TokenType, lexeme: string, line: int, column: int)

  /** The five type keywords, which are also the analyzer's universe of types. */
  predicate IsTypeKeyword(k: TokenType) {
    match k
    case IntKeyword | FloatKeyword | CharKeyword | BoolKeyword | StringKeyword => true
    case _ => false
  }

  /** The fourteen operator kinds that have a C# spelling. */
  predicate IsOperator(k: TokenType) {
    k in {Plus, Minus, Multiply, Divide, Modulo, Equals, NotEquals,
          LessThan, GreaterThan, LessEqual, GreaterEqual, And, Or, Not}
  }

  /** The name C# prints for an enum value (`TokenType.ToString()`). */
  function KindName(k: TokenType): string {
    match k
    case Var => "VAR"
    case Func => "FUNC"
    case IntKeyword => "INT_KEYWORD"
    case FloatKeyword => "FLOAT_KEYWORD"
    case CharKeyword => "CHAR_KEYWORD"
    case BoolKeyword => "BOOL_KEYWORD"
    case StringKeyword => "STRING_KEYWORD"
    case If => "IF"
    case Else => "ELSE"
    case While => "WHILE"
    case For => "FOR"
    case Return => "RETURN"
    case Print => "PRINT"
    case Input => "INPUT"
    case True => "TRUE"
    case False => "FALSE"
    case Assign => "ASSIGN"
    case Plus => "PLUS"
    case Minus => "MINUS"
    case Multiply => "MULTIPLY"
    case Divide => "DIVIDE"
    case Modulo => "MODULO"
    case Equals => "EQUALS"
    case NotEquals => "NOT_EQUALS"
    case LessThan => "LESS_THAN"
    case GreaterThan => "GREATER_THAN"
    case LessEqual => "LESS_EQUAL"
    case GreaterEqual => "GREATER_EQUAL"
    case And => "AND"
    case Or => "OR"
    case Not => "NOT"
    case OpenParen => "OPEN_PAREN"
    case CloseParen => "CLOSE_PAREN"
    case OpenBrace => "OPEN_BRACE"
    case CloseBrace => "CLOSE_BRACE"
    case Semicolon => "SEMICOLON"
    case Colon => "COLON"
    case Comma => "COMMA"
    case Identifier => "IDENTIFIER"
    case IntLiteral => "INT_LITERAL"
    case FloatLiteral => "FLOAT_LITERAL"
    case CharLiteral => "CHAR_LITERAL"
    case StringLiteral => "STRING_LITERAL"
    case EOF => "EOF"
    case Unknown => "UNKNOWN"
  }

  /** Decimal rendering of an integer, as C# string interpolation prints an `int`. */
  function IntToString(n: int): string {
    if n < 0 then "-" + NatToString(-n) else NatToString(n)
  }

  function DigitChar(d: nat): char
    requires d < 10
  {
    ('0' as int + d) as char
  }

  function NatToString(n: nat): (r: string)
    decreases n
  {
    if n < 10 then [DigitChar(n)] else NatToString(n / 10) + [DigitChar(n % 10)]
  }
}
