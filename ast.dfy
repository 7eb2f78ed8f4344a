/** The syntax tree (MACSLang.Syntax/AST) and the node constructors that check or convert
    their tokens. Each node keeps the token the source passes to the `AstNode` base as
    `Token`. Expression nodes carry the `ExpressionType` the analyzer records, and input
    statements the `ResolvedTargetType`; both start as `Var`, the default of the enum. */
module Ast {
  import opened Wrappers
  import opened Tokens

  /** The converted `Value` of a literal. A float keeps its lexeme: its `double` value is
      not modelled. */
  datatype LiteralValue =
    | IntValue(i: int)
    | FloatValue(text: string)
    | CharValue(c: char)
    | StringValue(s: string)
    | BoolValue(b: bool)

  datatype Expr =
    | Binary(left: Expr, op: Token, right: Expr, ty: TokenType)
    | Unary(op: Token, operand: Expr, ty: TokenType)
    | Literal(valueToken: Token, value: LiteralValue, ty: TokenType)
    | Ident(identifier: Token, ty: TokenType)
    | Call(identifier: Token, arguments: seq<Expr>, ty: TokenType)
  {
    /** The node's `Token`: the operator, the literal token or the name. */
    function Tok(): Token {
      match this
      case Binary(_, op, _, _) => op
      case Unary(op, _, _) => op
      case Literal(t, _, _) => t
      case Ident(t, _) => t
      case Call(t, _, _) => t
    }
  }

  /** A type annotation; its constructor admits only the five type keywords. */
  datatype TypeNodeData = TypeNodeData(tok: Token, typeToken: TokenType)

  type TypeNode = t: TypeNodeData | IsTypeKeyword(t.typeToken) && t.tok.kind == t.typeToken
    witness TypeNodeData(Token(IntKeyword, "int", 1, 1), IntKeyword)

  datatype Stmt =
    | VarDecl(identifier: Token, varType: TypeNode, initialValue: Option<Expr>, tok: Token)
    | AssignStmt(identifier: Token, value: Expr, tok: Token)
    | PrintStmt(expression: Expr, tok: Token)
    | InputStmt(target: Token, resolvedType: TokenType, tok: Token)
    | ReturnStmt(value: Expr, tok: Token)
    | IfStmt(condition: Expr, trueBlock: Block, elseBlock: Option<Block>, tok: Token)
    | WhileStmt(condition: Expr, body: Block, tok: Token)
    | ForStmt(init: Option<Stmt>, forCondition: Option<Expr>, increment: Option<Stmt>, body: Block, tok: Token)
    | ExprStmt(expression: Expr, tok: Token)

  /** A braced block; its token is the '{'. */
  datatype Block = Block(statements: seq<Stmt>, openBrace: Token)

  datatype Param = Param(identifier: Token, paramType: TypeNode, tok: Token)

  datatype Function = Function(identifier: Token, parameters: seq<Param>, returnType: TypeNode, body: Block, tok: Token)

  datatype Program = Program(functions: seq<Function>)

  // ---------------------------------------------------------------------------------------
  // Integer lexemes, as `int.TryParse` reads them

  const IntMin: int := -0x8000_0000
  const IntMax: int := 0x7FFF_FFFF

  predicate AllDigits(t: string) {
    forall k | 0 <= k < |t| :: '0' <= t[k] <= '9'
  }

  /** The number a string of decimal digits denotes. */
  function DecimalValue(t: string): nat
    requires AllDigits(t)
  {
    if t == [] then 0 else DecimalValue(t[..|t| - 1]) * 10 + (t[|t| - 1] as int - '0' as int)
  }

  /** The value of an optionally signed decimal numeral in the 32-bit range, or None. */
  function ParseInt32(t: string): (r: Option<int>)
    ensures r.Some? ==> IntMin <= r.value <= IntMax
  {
    var v: Option<int> :=
      if |t| > 0 && AllDigits(t) then Some(DecimalValue(t) as int)
      else if |t| > 1 && t[0] == '-' && AllDigits(t[1..]) then Some(0 - DecimalValue(t[1..]))
      else if |t| > 1 && t[0] == '+' && AllDigits(t[1..]) then Some(DecimalValue(t[1..]) as int)
      else None;
    if v.Some? && IntMin <= v.value <= IntMax then v else None
  }

  // ---------------------------------------------------------------------------------------
  // Node constructors. A `Failure` carries the ArgumentException thrown.

  /** Why a node constructor throws, with what its message quotes. */
  datatype NodeError =
    | InvalidInteger(lexeme: string)
    | InvalidChar(lexeme: string)
    | NotALiteral(kind: TokenType)
    | NotAType(lexeme: string)
    | NotAnIdentifier(lexeme: string)

  /** The message of the ArgumentException. */
  function NodeErrorText(e: NodeError): string {
    match e
    case InvalidInteger(t) => "Valor inteiro inválido: " + t
    case InvalidChar(t) => "Valor de caractere inválido: " + t
    case NotALiteral(k) => "Tipo de token não é um literal: " + KindName(k)
    case NotAType(t) => "O token '" + t + "' não é um tipo válido de MACSLang."
    case NotAnIdentifier(t) => "O token '" + t + "' não é um identificador."
  }

  /** `LiteralExpressionNode(valueToken)`: converts the lexeme according to the token kind. */
  function NewLiteral(t: Token): (r: Result<Expr, NodeError>)
    ensures r.Success? ==> r.value.Literal? && r.value.valueToken == t && r.value.Tok() == t && r.value.ty == Var
    ensures r.Success? <==>
      || (t.kind == IntLiteral && ParseInt32(t.lexeme).Some?)
      || t.kind == FloatLiteral
      || (t.kind == CharLiteral && |t.lexeme| == 1)
      || t.kind == StringLiteral || t.kind == True || t.kind == False
    ensures t.kind == IntLiteral && r.Failure? ==> r.error == InvalidInteger(t.lexeme)
    ensures t.kind == CharLiteral && r.Failure? ==> r.error == InvalidChar(t.lexeme)
    ensures t.kind == IntLiteral && r.Success? ==> r.value.value == IntValue(ParseInt32(t.lexeme).value)
    ensures t.kind == CharLiteral && r.Success? ==> r.value.value == CharValue(t.lexeme[0])
    ensures t.kind == StringLiteral ==> r.Success? && r.value.value == StringValue(t.lexeme)
    ensures t.kind == True ==> r.Success? && r.value.value == BoolValue(true)
    ensures t.kind == False ==> r.Success? && r.value.value == BoolValue(false)
  {
    match t.kind
    case IntLiteral =>
      var v := ParseInt32(t.lexeme);
      if v.Some? then Success(Literal(t, IntValue(v.value), Var))
      else Failure(InvalidInteger(t.lexeme))
    case FloatLiteral => Success(Literal(t, FloatValue(t.lexeme), Var))
    case CharLiteral =>
      if |t.lexeme| == 1 then Success(Literal(t, CharValue(t.lexeme[0]), Var))
      else Failure(InvalidChar(t.lexeme))
    case StringLiteral => Success(Literal(t, StringValue(t.lexeme), Var))
    case True => Success(Literal(t, BoolValue(true), Var))
    case False => Success(Literal(t, BoolValue(false), Var))
    case _ => Failure(NotALiteral(t.kind))
  }

  /** `TypeNode(typeToken)`: only the five type keywords are types. */
  function NewTypeNode(t: Token): (r: Result<TypeNode, NodeError>)
    ensures r.Success? <==> IsTypeKeyword(t.kind)
    ensures r.Success? ==> r.value.tok == t && r.value.typeToken == t.kind
    ensures r.Failure? ==> r.error == NotAType(t.lexeme)
  {
    if IsTypeKeyword(t.kind) then Success(TypeNodeData(t, t.kind))
    else Failure(NotAType(t.lexeme))
  }

  /** `IdentifierExpressionNode(identifierToken)`: only an IDENTIFIER token names a variable. */
  function NewIdentifier(t: Token): (r: Result<Expr, NodeError>)
    ensures r.Success? <==> t.kind == Identifier
    ensures r.Success? ==> r.value.Ident? && r.value.identifier == t && r.value.Tok() == t && r.value.ty == Var
    ensures r.Failure? ==> r.error == NotAnIdentifier(t.lexeme)
  {
    if t.kind == Identifier then Success(Ident(t, Var))
    else Failure(NotAnIdentifier(t.lexeme))
  }

  /** `FunctionDeclarationNode(...)`: a missing parameter list is empty and a missing token
      is the name's token. */
  function NewFunctionDeclaration(identifier: Token, parameters: Option<seq<Param>>, returnType: TypeNode,
                                  body: Block, token: Option<Token>): (r: Function)
    ensures parameters.None? ==> r.parameters == []
    ensures parameters.Some? ==> r.parameters == parameters.value
    ensures token.None? ==> r.tok == identifier
    ensures token.Some? ==> r.tok == token.value
    ensures r.identifier == identifier && r.returnType == returnType && r.body == body
  {
    Function(identifier, parameters.GetOr([]), returnType, body, token.GetOr(identifier))
  }

  /** `ParameterNode(identifier, type)`: a missing token is the name's token. */
  function NewParameter(identifier: Token, paramType: TypeNode, token: Option<Token>): (r: Param)
    ensures token.None? ==> r.tok == identifier
    ensures token.Some? ==> r.tok == token.value
    ensures r.identifier == identifier && r.paramType == paramType
  {
    Param(identifier, paramType, token.GetOr(identifier))
  }

  // ---------------------------------------------------------------------------------------
  // Properties of the constructors

  /** The decimal text of a number is all digits and reads back as that number. */
  lemma {:induction false} DecimalRoundTrip(n: nat)
    ensures AllDigits(NatToString(n)) && DecimalValue(NatToString(n)) == n
    decreases n
  {
    if n >= 10 {
      DecimalRoundTrip(n / 10);
      var t := NatToString(n);
      assert t[..|t| - 1] == NatToString(n / 10);
    }
  }

  /** Any `int` in the 32-bit range, printed in decimal, reads back as that value. */
  lemma ParseInt32RoundTrip(n: int)
    requires IntMin <= n <= IntMax
    ensures ParseInt32(IntToString(n)) == Some(n)
  {
    var t := IntToString(n);
    if n < 0 {
      DecimalRoundTrip(-n);
      assert t[1..] == NatToString(-n);
      assert t[0] == '-';
      assert !AllDigits(t);
      assert ParseInt32(t) == Some(0 - DecimalValue(t[1..]));
    } else {
      DecimalRoundTrip(n);
    }
  }

  /** So the literal of such a number's decimal text has that value. */
  lemma IntLiteralRoundTrip(n: int, line: int, column: int)
    requires IntMin <= n <= IntMax
    ensures var t := Token(IntLiteral, IntToString(n), line, column);
      NewLiteral(t) == Success(Literal(t, IntValue(n), Var))
  {
    ParseInt32RoundTrip(n);
  }

  /** A digit string beyond the 32-bit range is rejected. */
  lemma IntLiteralOverflow(t: Token)
    requires t.kind == IntLiteral && |t.lexeme| > 0 && AllDigits(t.lexeme)
    requires DecimalValue(t.lexeme) > IntMax
    ensures NewLiteral(t).Failure?
  {
  }
}
