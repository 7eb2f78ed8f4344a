/** The grammar the recursive-descent parser implements (MACSLang.Parser/Parser.cs), as
    functions of the token stream and the index of the current token. Each function returns
    the node and the index after it, or the exception the parser throws.

    The stream is the lexer's output up to and including its first EOF. Reading past its
    end yields that EOF again, as the lexer does once it has reached the end of the source
    (`Scanner.EofIsStable`). */
module ParserSpec {
  import opened Wrappers
  import opened Tokens
  import opened Ast

  /** `ParseException` with its message and token, or the `ArgumentException` of a node
      constructor. */
  datatype ParseError =
    | ParseException(message: Msg, errorToken: Token)
    | ArgumentException(error: NodeError)

  /** The message each `Consume` or `throw` in the parser passes to `ParseException`. */
  datatype Msg =
    | UnexpectedExpressionStart
    | UnexpectedStatementStart
    | ExpectedType
    | ExpectedGroupClose
    | ExpectedCallName
    | ExpectedCallOpen
    | ExpectedCallClose
    | ExpectedBlockOpen
    | ExpectedBlockClose
    | ExpectedCallSemicolon
    | ExpectedVar
    | ExpectedVarName
    | ExpectedVarColon
    | ExpectedVarSemicolon
    | ExpectedAssignName
    | ExpectedAssignOp
    | ExpectedAssignSemicolon
    | ExpectedForAssignName
    | ExpectedForAssignOp
    | ExpectedReturn
    | ExpectedReturnSemicolon
    | ExpectedPrint
    | ExpectedPrintOpen
    | ExpectedPrintClose
    | ExpectedPrintSemicolon
    | ExpectedInput
    | ExpectedInputOpen
    | ExpectedInputName
    | ExpectedInputClose
    | ExpectedInputSemicolon
    | ExpectedIf
    | ExpectedIfOpen
    | ExpectedIfClose
    | ExpectedWhile
    | ExpectedWhileOpen
    | ExpectedWhileClose
    | ExpectedFor
    | ExpectedForOpen
    | ExpectedForConditionSemicolon
    | ExpectedForClose
    | ExpectedForInitSemicolon
    | ExpectedParamName
    | ExpectedParamColon
    | ExpectedFunc
    | ExpectedFuncName
    | ExpectedFuncOpen
    | ExpectedFuncClose
    | ExpectedReturnTypeColon

  /** A parsed node and the index of the first token after it. */
  datatype Parsed<+T> = Parsed(node: T, next: nat)

  type PResult<T> = Result<Parsed<T>, ParseError>

  /** A token stream as the lexer delivers it: non-empty and ending in EOF. */
  predicate Terminated(ts: seq<Token>) {
    |ts| > 0 && ts[|ts| - 1].kind == EOF
  }

  /** The token at index `i`; past the end, the final EOF. */
  function Tok(ts: seq<Token>, i: nat): Token
    requires |ts| > 0
  {
    if i < |ts| then ts[i] else ts[|ts| - 1]
  }

  /** The message text; the two "unexpected token" messages quote the current token's
      lexeme. */
  function MessageText(m: Msg, lexeme: string): string {
    match m
    case UnexpectedExpressionStart => "Token inesperado para início de expressão: '" + lexeme + "'."
    case UnexpectedStatementStart => "Token inesperado para início de comando: '" + lexeme + "'."
    case ExpectedType => "Esperado um tipo de dado (int, float, char, bool, string)."
    case ExpectedGroupClose => "Esperado ')' para fechar a expressão parentesizada."
    case ExpectedCallName => "Esperado nome da função para chamada."
    case ExpectedCallOpen => "Esperado '(' após o nome da função em chamada."
    case ExpectedCallClose => "Esperado ')' após os argumentos da função."
    case ExpectedBlockOpen => "Esperado '{' para iniciar o bloco de código."
    case ExpectedBlockClose => "Esperado '}' para fechar o bloco de código."
    case ExpectedCallSemicolon => "Esperado ';' após a chamada de função."
    case ExpectedVar => "Esperado palavra-chave 'var'."
    case ExpectedVarName => "Esperado nome da variável."
    case ExpectedVarColon => "Esperado ':' antes do tipo da variável."
    case ExpectedVarSemicolon => "Esperado ';' após a declaração de variável."
    case ExpectedAssignName => "Esperado identificador para atribuição."
    case ExpectedAssignOp => "Esperado '=' para atribuição."
    case ExpectedAssignSemicolon => "Esperado ';' após a atribuição."
    case ExpectedForAssignName => "Esperado identificador para atribuição no for."
    case ExpectedForAssignOp => "Esperado '=' para atribuição no for."
    case ExpectedReturn => "Esperado palavra-chave 'return'."
    case ExpectedReturnSemicolon => "Esperado ';' após a expressão de retorno."
    case ExpectedPrint => "Esperado palavra-chave 'print'."
    case ExpectedPrintOpen => "Esperado '(' após 'print'."
    case ExpectedPrintClose => "Esperado ')' após a expressão do 'print'."
    case ExpectedPrintSemicolon => "Esperado ';' após o 'print'."
    case ExpectedInput => "Esperado palavra-chave 'input'."
    case ExpectedInputOpen => "Esperado '(' após 'input'."
    case ExpectedInputName => "Esperado identificador para 'input'."
    case ExpectedInputClose => "Esperado ')' após o identificador do 'input'."
    case ExpectedInputSemicolon => "Esperado ';' após o 'input'."
    case ExpectedIf => "Esperado palavra-chave 'if'."
    case ExpectedIfOpen => "Esperado '(' após 'if'."
    case ExpectedIfClose => "Esperado ')' após a condição do 'if'."
    case ExpectedWhile => "Esperado palavra-chave 'while'."
    case ExpectedWhileOpen => "Esperado '(' após 'while'."
    case ExpectedWhileClose => "Esperado ')' após a condição do 'while'."
    case ExpectedFor => "Esperado palavra-chave 'for'."
    case ExpectedForOpen => "Esperado '(' após 'for'."
    case ExpectedForConditionSemicolon => "Esperado ';' após a condição do 'for'."
    case ExpectedForClose => "Esperado ')' após o incremento do 'for'."
    case ExpectedForInitSemicolon => "Esperado ';' após a inicialização do 'for'."
    case ExpectedParamName => "Esperado nome do parâmetro."
    case ExpectedParamColon => "Esperado ':' antes do tipo do parâmetro."
    case ExpectedFunc => "Esperado palavra-chave 'func'."
    case ExpectedFuncName => "Esperado nome da função."
    case ExpectedFuncOpen => "Esperado '(' após o nome da função."
    case ExpectedFuncClose => "Esperado ')' após parâmetros da função."
    case ExpectedReturnTypeColon => "Esperado ':' antes do tipo de retorno da função."
  }

  /** The text of a `ParseException` (Parser.cs:515-517). */
  function ExceptionMessage(message: Msg, errorToken: Token): string {
    "Erro de Sintaxe: " + MessageText(message, errorToken.lexeme) + " em Linha: " + IntToString(errorToken.line) + ", Coluna: "
      + IntToString(errorToken.column) + ". Token: '" + errorToken.lexeme + "' (" + KindName(errorToken.kind) + ")"
  }

  /** A node constructor's result as a parse result ending at `next`. */
  function Lift<T>(r: Result<T, NodeError>, next: nat): PResult<T> {
    match r
    case Success(v) => Success(Parsed(v, next))
    case Failure(m) => Failure(ArgumentException(m))
  }

  /** `Consume(kind, message)`: the current token when it has the expected kind, with the
      index moved past it; otherwise the exception, carrying the current token. */
  function Consume(ts: seq<Token>, i: nat, kind: TokenType, message: Msg): (r: PResult<Token>)
    requires Terminated(ts) && i < |ts| && kind != EOF
    ensures r.Success? <==> ts[i].kind == kind
    ensures r.Success? ==> r.value == Parsed(ts[i], i + 1) && i + 1 < |ts|
    ensures r.Failure? ==> r.error == ParseException(message, ts[i])
  {
    if ts[i].kind == kind then Success(Parsed(ts[i], i + 1)) else Failure(ParseException(message, ts[i]))
  }

  /** `ParseType`: exactly the five type keywords, one token. */
  function ParseType(ts: seq<Token>, i: nat): (r: PResult<TypeNode>)
    requires Terminated(ts) && i < |ts|
    ensures r.Success? <==> IsTypeKeyword(ts[i].kind)
    ensures r.Success? ==> r.value.node.tok == ts[i] && r.value.node.typeToken == ts[i].kind && r.value.next == i + 1
    ensures r.Success? ==> r.value.next < |ts|
    ensures r.Failure? ==> r.error == ParseException(ExpectedType, ts[i])
  {
    if IsTypeKeyword(ts[i].kind) then Lift(NewTypeNode(ts[i]), i + 1)
    else Failure(ParseException(ExpectedType, ts[i]))
  }

  // ---------------------------------------------------------------------------------------
  // Expressions

  /** The binary level of an operator kind, from 1 (`||`, loosest) to 6 (`* / %`); 0 for
      every other kind. */
  function Precedence(k: TokenType): nat {
    match k
    case Or => 1
    case And => 2
    case Equals | NotEquals => 3
    case LessThan | GreaterThan | LessEqual | GreaterEqual => 4
    case Plus | Minus => 5
    case Multiply | Divide | Modulo => 6
    case _ => 0
  }

  /** The prefix operators, `!` and `-`. */
  predicate IsUnaryOp(k: TokenType) {
    match k
    case Not | Minus => true
    case _ => false
  }

  /** The kinds `ParsePrimaryExpression` treats as literals. */
  predicate IsLiteralKind(k: TokenType) {
    match k
    case IntLiteral | FloatLiteral | StringLiteral | CharLiteral | True | False => true
    case _ => false
  }

  function ParseExpression(ts: seq<Token>, i: nat): (r: PResult<Expr>)
    requires Terminated(ts) && i < |ts|
    ensures r.Success? ==> i < r.value.next < |ts|
    decreases |ts| - i, 19
  {
    ParseLogicalOr(ts, i)
  }

  /** `ParseLogicalOrExpression`: an operand, then the loop that folds each further operator
      and operand into the left operand. */
  function ParseLogicalOr(ts: seq<Token>, i: nat): (r: PResult<Expr>)
    requires Terminated(ts) && i < |ts|
    ensures r.Success? ==> i < r.value.next < |ts|
    decreases |ts| - i, 18
  {
    var left :- ParseLogicalAnd(ts, i);
    ParseLogicalOrRest(ts, left.next, left.node)
  }

  /** The loop of `ParseLogicalOrExpression` with `left` parsed so far and `j` at the next token. */
  function ParseLogicalOrRest(ts: seq<Token>, j: nat, left: Expr): (r: PResult<Expr>)
    requires Terminated(ts) && j < |ts|
    ensures r.Success? ==> j <= r.value.next < |ts|
    decreases |ts| - j, 18
  {
    if ts[j].kind == Or then
      var right :- ParseLogicalAnd(ts, j + 1);
      ParseLogicalOrRest(ts, right.next, Binary(left, ts[j], right.node, Var))
    else Success(Parsed(left, j))
  }

  /** `ParseLogicalAndExpression`: an operand, then the loop that folds each further operator
      and operand into the left operand. */
  function ParseLogicalAnd(ts: seq<Token>, i: nat): (r: PResult<Expr>)
    requires Terminated(ts) && i < |ts|
    ensures r.Success? ==> i < r.value.next < |ts|
    decreases |ts| - i, 16
  {
    var left :- ParseEquality(ts, i);
    ParseLogicalAndRest(ts, left.next, left.node)
  }

  /** The loop of `ParseLogicalAndExpression` with `left` parsed so far and `j` at the next token. */
  function ParseLogicalAndRest(ts: seq<Token>, j: nat, left: Expr): (r: PResult<Expr>)
    requires Terminated(ts) && j < |ts|
    ensures r.Success? ==> j <= r.value.next < |ts|
    decreases |ts| - j, 16
  {
    if ts[j].kind == And then
      var right :- ParseEquality(ts, j + 1);
      ParseLogicalAndRest(ts, right.next, Binary(left, ts[j], right.node, Var))
    else Success(Parsed(left, j))
  }

  /** `ParseEqualityExpression`: an operand, then the loop that folds each further operator
      and operand into the left operand. */
  function ParseEquality(ts: seq<Token>, i: nat): (r: PResult<Expr>)
    requires Terminated(ts) && i < |ts|
    ensures r.Success? ==> i < r.value.next < |ts|
    decreases |ts| - i, 14
  {
    var left :- ParseComparison(ts, i);
    ParseEqualityRest(ts, left.next, left.node)
  }

  /** The loop of `ParseEqualityExpression` with `left` parsed so far and `j` at the next token. */
  function ParseEqualityRest(ts: seq<Token>, j: nat, left: Expr): (r: PResult<Expr>)
    requires Terminated(ts) && j < |ts|
    ensures r.Success? ==> j <= r.value.next < |ts|
    decreases |ts| - j, 14
  {
    if Precedence(ts[j].kind) == 3 then
      var right :- ParseComparison(ts, j + 1);
      ParseEqualityRest(ts, right.next, Binary(left, ts[j], right.node, Var))
    else Success(Parsed(left, j))
  }

  /** `ParseComparisonExpression`: an operand, then the loop that folds each further operator
      and operand into the left operand. */
  function ParseComparison(ts: seq<Token>, i: nat): (r: PResult<Expr>)
    requires Terminated(ts) && i < |ts|
    ensures r.Success? ==> i < r.value.next < |ts|
    decreases |ts| - i, 12
  {
    var left :- ParseAdditive(ts, i);
    ParseComparisonRest(ts, left.next, left.node)
  }

  /** The loop of `ParseComparisonExpression` with `left` parsed so far and `j` at the next token. */
  function ParseComparisonRest(ts: seq<Token>, j: nat, left: Expr): (r: PResult<Expr>)
    requires Terminated(ts) && j < |ts|
    ensures r.Success? ==> j <= r.value.next < |ts|
    decreases |ts| - j, 12
  {
    if Precedence(ts[j].kind) == 4 then
      var right :- ParseAdditive(ts, j + 1);
      ParseComparisonRest(ts, right.next, Binary(left, ts[j], right.node, Var))
    else Success(Parsed(left, j))
  }

  /** `ParseAdditiveExpression`: an operand, then the loop that folds each further operator
      and operand into the left operand. */
  function ParseAdditive(ts: seq<Token>, i: nat): (r: PResult<Expr>)
    requires Terminated(ts) && i < |ts|
    ensures r.Success? ==> i < r.value.next < |ts|
    decreases |ts| - i, 10
  {
    var left :- ParseMultiplicative(ts, i);
    ParseAdditiveRest(ts, left.next, left.node)
  }

  /** The loop of `ParseAdditiveExpression` with `left` parsed so far and `j` at the next token. */
  function ParseAdditiveRest(ts: seq<Token>, j: nat, left: Expr): (r: PResult<Expr>)
    requires Terminated(ts) && j < |ts|
    ensures r.Success? ==> j <= r.value.next < |ts|
    decreases |ts| - j, 10
  {
    if Precedence(ts[j].kind) == 5 then
      var right :- ParseMultiplicative(ts, j + 1);
      ParseAdditiveRest(ts, right.next, Binary(left, ts[j], right.node, Var))
    else Success(Parsed(left, j))
  }

  /** `ParseMultiplicativeExpression`: an operand, then the loop that folds each further operator
      and operand into the left operand. */
  function ParseMultiplicative(ts: seq<Token>, i: nat): (r: PResult<Expr>)
    requires Terminated(ts) && i < |ts|
    ensures r.Success? ==> i < r.value.next < |ts|
    decreases |ts| - i, 8
  {
    var left :- ParseUnary(ts, i);
    ParseMultiplicativeRest(ts, left.next, left.node)
  }

  /** The loop of `ParseMultiplicativeExpression` with `left` parsed so far and `j` at the next token. */
  function ParseMultiplicativeRest(ts: seq<Token>, j: nat, left: Expr): (r: PResult<Expr>)
    requires Terminated(ts) && j < |ts|
    ensures r.Success? ==> j <= r.value.next < |ts|
    decreases |ts| - j, 8
  {
    if Precedence(ts[j].kind) == 6 then
      var right :- ParseUnary(ts, j + 1);
      ParseMultiplicativeRest(ts, right.next, Binary(left, ts[j], right.node, Var))
    else Success(Parsed(left, j))
  }

  /** `ParseUnary`: `!` and `-` apply to the unary expression after them. */
  function ParseUnary(ts: seq<Token>, i: nat): (r: PResult<Expr>)
    requires Terminated(ts) && i < |ts|
    ensures r.Success? ==> i < r.value.next < |ts|
    decreases |ts| - i, 3
  {
    if IsUnaryOp(ts[i].kind) then
      var operand :- ParseUnary(ts, i + 1);
      Success(Parsed(Unary(ts[i], operand.node, Var), operand.next))
    else ParsePrimary(ts, i)
  }

  /** `ParsePrimary`: a literal, a name, a call, or a parenthesised expression, which is
      returned as it is. */
  function ParsePrimary(ts: seq<Token>, i: nat): (r: PResult<Expr>)
    requires Terminated(ts) && i < |ts|
    ensures r.Success? ==> i < r.value.next < |ts|
    decreases |ts| - i, 2
  {
    var k := ts[i].kind;
    if IsLiteralKind(k) then ParseLiteral(ts, i)
    else if k == Identifier then ParseNameExpression(ts, i)
    else if k == OpenParen then ParseParenthesized(ts, i)
    else Failure(ParseException(UnexpectedExpressionStart, ts[i]))
  }

  /** A literal token, converted by the literal node's constructor. */
  function ParseLiteral(ts: seq<Token>, i: nat): (r: PResult<Expr>)
    requires Terminated(ts) && i < |ts| && IsLiteralKind(ts[i].kind)
    ensures r.Success? ==> r.value.next == i + 1 < |ts|
  {
    Lift(NewLiteral(ts[i]), i + 1)
  }

  /** A name: a call when '(' follows, otherwise a variable. */
  function ParseNameExpression(ts: seq<Token>, i: nat): (r: PResult<Expr>)
    requires Terminated(ts) && i < |ts| && ts[i].kind == Identifier
    ensures r.Success? ==> i < r.value.next < |ts|
    decreases |ts| - i, 1
  {
    if Tok(ts, i + 1).kind == OpenParen then ParseCall(ts, i)
    else Lift(NewIdentifier(ts[i]), i + 1)
  }

  /** '(' expression ')', which stands for the expression itself. */
  function ParseParenthesized(ts: seq<Token>, i: nat): (r: PResult<Expr>)
    requires Terminated(ts) && i < |ts| && ts[i].kind == OpenParen
    ensures r.Success? ==> i < r.value.next < |ts|
    decreases |ts| - i, 1
  {
    var inner :- ParseExpression(ts, i + 1);
    var close :- Consume(ts, inner.next, CloseParen, ExpectedGroupClose);
    Success(Parsed(inner.node, close.next))
  }

  /** `ParseFunctionCallExpression`: name, '(', arguments separated by ',', ')'. */
  function ParseCall(ts: seq<Token>, i: nat): (r: PResult<Expr>)
    requires Terminated(ts) && i < |ts|
    ensures r.Success? ==> i < r.value.next < |ts|
    ensures r.Success? ==> r.value.node.Call? && r.value.node.identifier == ts[i]
    decreases |ts| - i, 0
  {
    var name :- Consume(ts, i, Identifier, ExpectedCallName);
    var open :- Consume(ts, name.next, OpenParen, ExpectedCallOpen);
    var args :- ParseArgumentList(ts, open.next);
    var close :- Consume(ts, args.next, CloseParen, ExpectedCallClose);
    Success(Parsed(Call(name.node, args.node, Var), close.next))
  }

  /** The arguments of a call: none before ')', otherwise expressions separated by ','. */
  function ParseArgumentList(ts: seq<Token>, j: nat): (r: PResult<seq<Expr>>)
    requires Terminated(ts) && j < |ts|
    ensures r.Success? ==> j <= r.value.next < |ts|
    decreases |ts| - j, 21
  {
    if ts[j].kind == CloseParen then Success(Parsed([], j))
    else ParseNonEmptyArguments(ts, j)
  }

  /** A first argument, then the loop over the others. */
  function ParseNonEmptyArguments(ts: seq<Token>, j: nat): (r: PResult<seq<Expr>>)
    requires Terminated(ts) && j < |ts|
    ensures r.Success? ==> j < r.value.next < |ts|
    decreases |ts| - j, 20
  {
    var first :- ParseExpression(ts, j);
    ParseArguments(ts, first.next, [first.node])
  }

  /** The argument loop: each ',' is followed by one more argument. */
  function ParseArguments(ts: seq<Token>, j: nat, args: seq<Expr>): (r: PResult<seq<Expr>>)
    requires Terminated(ts) && j < |ts|
    ensures r.Success? ==> j <= r.value.next < |ts| && args <= r.value.node
    ensures r.Success? ==> ts[r.value.next].kind != Comma
    decreases |ts| - j, 0
  {
    if ts[j].kind == Comma then
      var arg :- ParseExpression(ts, j + 1);
      ParseArguments(ts, arg.next, args + [arg.node])
    else Success(Parsed(args, j))
  }

  // ---------------------------------------------------------------------------------------
  // Statements

  /** `ParseBlock`: '{', statements up to '}' or EOF, '}'. */
  function ParseBlock(ts: seq<Token>, i: nat): (r: PResult<Block>)
    requires Terminated(ts) && i < |ts|
    ensures r.Success? ==> i < r.value.next < |ts|
    decreases |ts| - i, 25
  {
    var open :- Consume(ts, i, OpenBrace, ExpectedBlockOpen);
    var body :- ParseStatements(ts, open.next, []);
    var close :- Consume(ts, body.next, CloseBrace, ExpectedBlockClose);
    Success(Parsed(Block(body.node, open.node), close.next))
  }

  /** The statement loop of a block. */
  function ParseStatements(ts: seq<Token>, j: nat, stmts: seq<Stmt>): (r: PResult<seq<Stmt>>)
    requires Terminated(ts) && j < |ts|
    ensures r.Success? ==> j <= r.value.next < |ts|
    ensures r.Success? ==> (ts[r.value.next].kind == CloseBrace || ts[r.value.next].kind == EOF)
    decreases |ts| - j, 24
  {
    if ts[j].kind == CloseBrace || ts[j].kind == EOF then Success(Parsed(stmts, j))
    else
      var s :- ParseStatement(ts, j);
      ParseStatements(ts, s.next, stmts + [s.node])
  }

  /** `ParseStatement`: dispatch on the first token; a name must be followed by '=' or '('. */
  function ParseStatement(ts: seq<Token>, i: nat): (r: PResult<Stmt>)
    requires Terminated(ts) && i < |ts|
    ensures r.Success? ==> i < r.value.next < |ts|
    decreases |ts| - i, 23
  {
    var k := ts[i].kind;
    if k == Var then ParseVarDecl(ts, i)
    else if k == Return then ParseReturn(ts, i)
    else if k == Print then ParsePrint(ts, i)
    else if k == Input then ParseInput(ts, i)
    else if k == If then ParseIf(ts, i)
    else if k == While then ParseWhile(ts, i)
    else if k == For then ParseFor(ts, i)
    else if k == Identifier then ParseNameStatement(ts, i)
    else Failure(ParseException(UnexpectedStatementStart, ts[i]))
  }

  /** A statement starting with a name: an assignment before '=', a call statement before
      '(', and otherwise the error for an unexpected token. */
  function ParseNameStatement(ts: seq<Token>, i: nat): (r: PResult<Stmt>)
    requires Terminated(ts) && i < |ts| && ts[i].kind == Identifier
    ensures r.Success? ==> i < r.value.next < |ts|
    decreases |ts| - i, 22
  {
    var next := Tok(ts, i + 1).kind;
    if next == TokenType.Assign then ParseAssignment(ts, i)
    else if next == OpenParen then ParseCallStatement(ts, i)
    else Failure(ParseException(UnexpectedStatementStart, ts[i]))
  }

  /** A call followed by ';'. */
  function ParseCallStatement(ts: seq<Token>, i: nat): (r: PResult<Stmt>)
    requires Terminated(ts) && i < |ts|
    ensures r.Success? ==> i < r.value.next < |ts|
    decreases |ts| - i, 21
  {
    var call :- ParseCall(ts, i);
    var semi :- Consume(ts, call.next, Semicolon, ExpectedCallSemicolon);
    Success(Parsed(ExprStmt(call.node, call.node.Tok()), semi.next))
  }

  /** `ParseVariableDeclaration`: var name ':' type ['=' expression] ';'. */
  function ParseVarDecl(ts: seq<Token>, i: nat): (r: PResult<Stmt>)
    requires Terminated(ts) && i < |ts|
    ensures r.Success? ==> i < r.value.next < |ts| && r.value.node.VarDecl?
    decreases |ts| - i, 21
  {
    var varTok :- Consume(ts, i, Var, ExpectedVar);
    var name :- Consume(ts, varTok.next, Identifier, ExpectedVarName);
    var colon :- Consume(ts, name.next, Colon, ExpectedVarColon);
    var ty :- ParseType(ts, colon.next);
    var init :- ParseInitializer(ts, ty.next);
    var semi :- Consume(ts, init.next, Semicolon, ExpectedVarSemicolon);
    Success(Parsed(VarDecl(name.node, ty.node, init.node, varTok.node), semi.next))
  }

  /** The optional `= expression` of a declaration. */
  function ParseInitializer(ts: seq<Token>, j: nat): (r: PResult<Option<Expr>>)
    requires Terminated(ts) && j < |ts|
    ensures r.Success? ==> j <= r.value.next < |ts|
    decreases |ts| - j, 20
  {
    if ts[j].kind == TokenType.Assign then
      var e :- ParseExpression(ts, j + 1);
      Success(Parsed(Some(e.node), e.next))
    else Success(Parsed(None, j))
  }

  /** `ParseAssignmentStatement`: name '=' expression ';'. */
  function ParseAssignment(ts: seq<Token>, i: nat): (r: PResult<Stmt>)
    requires Terminated(ts) && i < |ts|
    ensures r.Success? ==> i < r.value.next < |ts| && r.value.node.AssignStmt?
    decreases |ts| - i, 21
  {
    var name :- Consume(ts, i, Identifier, ExpectedAssignName);
    var assign :- Consume(ts, name.next, TokenType.Assign, ExpectedAssignOp);
    var value :- ParseExpression(ts, assign.next);
    var semi :- Consume(ts, value.next, Semicolon, ExpectedAssignSemicolon);
    Success(Parsed(AssignStmt(name.node, value.node, assign.node), semi.next))
  }

  /** `ParseAssignmentStatementWithoutSemicolon`: the increment of a `for`. */
  function ParseAssignmentNoSemicolon(ts: seq<Token>, i: nat): (r: PResult<Stmt>)
    requires Terminated(ts) && i < |ts|
    ensures r.Success? ==> i < r.value.next < |ts| && r.value.node.AssignStmt?
    decreases |ts| - i, 21
  {
    var name :- Consume(ts, i, Identifier, ExpectedForAssignName);
    var assign :- Consume(ts, name.next, TokenType.Assign, ExpectedForAssignOp);
    var value :- ParseExpression(ts, assign.next);
    Success(Parsed(AssignStmt(name.node, value.node, assign.node), value.next))
  }

  /** `ParseReturnStatement`: return expression ';'. */
  function ParseReturn(ts: seq<Token>, i: nat): (r: PResult<Stmt>)
    requires Terminated(ts) && i < |ts|
    ensures r.Success? ==> i < r.value.next < |ts|
    decreases |ts| - i, 21
  {
    var ret :- Consume(ts, i, Return, ExpectedReturn);
    var value :- ParseExpression(ts, ret.next);
    var semi :- Consume(ts, value.next, Semicolon, ExpectedReturnSemicolon);
    Success(Parsed(ReturnStmt(value.node, ret.node), semi.next))
  }

  /** `ParsePrintStatement`: print '(' expression ')' ';'. */
  function ParsePrint(ts: seq<Token>, i: nat): (r: PResult<Stmt>)
    requires Terminated(ts) && i < |ts|
    ensures r.Success? ==> i < r.value.next < |ts|
    decreases |ts| - i, 21
  {
    var printTok :- Consume(ts, i, Print, ExpectedPrint);
    var open :- Consume(ts, printTok.next, OpenParen, ExpectedPrintOpen);
    var e :- ParseExpression(ts, open.next);
    var close :- Consume(ts, e.next, CloseParen, ExpectedPrintClose);
    var semi :- Consume(ts, close.next, Semicolon, ExpectedPrintSemicolon);
    Success(Parsed(PrintStmt(e.node, printTok.node), semi.next))
  }

  /** `ParseInputStatement`: input '(' name ')' ';'. */
  function ParseInput(ts: seq<Token>, i: nat): (r: PResult<Stmt>)
    requires Terminated(ts) && i < |ts|
    ensures r.Success? ==> i < r.value.next < |ts|
    decreases |ts| - i, 21
  {
    var input :- Consume(ts, i, Input, ExpectedInput);
    var open :- Consume(ts, input.next, OpenParen, ExpectedInputOpen);
    var target :- Consume(ts, open.next, Identifier, ExpectedInputName);
    var close :- Consume(ts, target.next, CloseParen, ExpectedInputClose);
    var semi :- Consume(ts, close.next, Semicolon, ExpectedInputSemicolon);
    Success(Parsed(InputStmt(target.node, Var, input.node), semi.next))
  }

  /** `ParseIfStatement`: if '(' condition ')' block [else block]. */
  function ParseIf(ts: seq<Token>, i: nat): (r: PResult<Stmt>)
    requires Terminated(ts) && i < |ts|
    ensures r.Success? ==> i < r.value.next < |ts|
    decreases |ts| - i, 21
  {
    var ifTok :- Consume(ts, i, If, ExpectedIf);
    var open :- Consume(ts, ifTok.next, OpenParen, ExpectedIfOpen);
    var cond :- ParseExpression(ts, open.next);
    var close :- Consume(ts, cond.next, CloseParen, ExpectedIfClose);
    var then_ :- ParseBlock(ts, close.next);
    var else_ :- ParseElse(ts, then_.next);
    Success(Parsed(IfStmt(cond.node, then_.node, else_.node, ifTok.node), else_.next))
  }

  /** The optional `else block` of an `if`. */
  function ParseElse(ts: seq<Token>, j: nat): (r: PResult<Option<Block>>)
    requires Terminated(ts) && j < |ts|
    ensures r.Success? ==> j <= r.value.next < |ts|
    decreases |ts| - j, 20
  {
    if ts[j].kind == Else then
      var b :- ParseBlock(ts, j + 1);
      Success(Parsed(Some(b.node), b.next))
    else Success(Parsed(None, j))
  }

  /** `ParseWhileStatement`: while '(' condition ')' block. */
  function ParseWhile(ts: seq<Token>, i: nat): (r: PResult<Stmt>)
    requires Terminated(ts) && i < |ts|
    ensures r.Success? ==> i < r.value.next < |ts|
    decreases |ts| - i, 21
  {
    var whileTok :- Consume(ts, i, While, ExpectedWhile);
    var open :- Consume(ts, whileTok.next, OpenParen, ExpectedWhileOpen);
    var cond :- ParseExpression(ts, open.next);
    var close :- Consume(ts, cond.next, CloseParen, ExpectedWhileClose);
    var body :- ParseBlock(ts, close.next);
    Success(Parsed(WhileStmt(cond.node, body.node, whileTok.node), body.next))
  }

  /** `ParseForStatement`: for '(' init ';' condition ';' increment ')' block, each slot
      possibly empty. */
  function ParseFor(ts: seq<Token>, i: nat): (r: PResult<Stmt>)
    requires Terminated(ts) && i < |ts|
    ensures r.Success? ==> i < r.value.next < |ts| && r.value.node.ForStmt?
    decreases |ts| - i, 21
  {
    var forTok :- Consume(ts, i, For, ExpectedFor);
    var open :- Consume(ts, forTok.next, OpenParen, ExpectedForOpen);
    var init :- ParseForInit(ts, open.next);
    var cond :- ParseForCondition(ts, init.next);
    var semi :- Consume(ts, cond.next, Semicolon, ExpectedForConditionSemicolon);
    var incr :- ParseForIncrement(ts, semi.next);
    var close :- Consume(ts, incr.next, CloseParen, ExpectedForClose);
    var body :- ParseBlock(ts, close.next);
    Success(Parsed(ForStmt(init.node, cond.node, incr.node, body.node, forTok.node), body.next))
  }

  /** The condition slot: empty before ';', otherwise an expression. */
  function ParseForCondition(ts: seq<Token>, p: nat): (r: PResult<Option<Expr>>)
    requires Terminated(ts) && p < |ts|
    ensures r.Success? ==> p <= r.value.next < |ts|
    decreases |ts| - p, 20
  {
    if ts[p].kind != Semicolon then
      var c :- ParseExpression(ts, p);
      Success(Parsed(Some(c.node), c.next))
    else Success(Parsed(None, p))
  }

  /** The init slot: empty (its ';' consumed), a declaration or an assignment (each with its
      own ';'), or an expression followed by ';'. */
  function ParseForInit(ts: seq<Token>, p: nat): (r: PResult<Option<Stmt>>)
    requires Terminated(ts) && p < |ts|
    ensures r.Success? ==> p < r.value.next < |ts|
    decreases |ts| - p, 23
  {
    if ts[p].kind == Semicolon then Success(Parsed(None, p + 1))
    else if ts[p].kind == Var then ParseInitDeclaration(ts, p)
    else if ts[p].kind == Identifier then ParseNameInit(ts, p)
    else ParseInitExpression(ts, p)
  }

  function ParseNameInit(ts: seq<Token>, p: nat): (r: PResult<Option<Stmt>>)
    requires Terminated(ts) && p < |ts| && ts[p].kind == Identifier
    ensures r.Success? ==> p < r.value.next < |ts|
    decreases |ts| - p, 22
  {
    if Tok(ts, p + 1).kind == TokenType.Assign then ParseInitAssignment(ts, p)
    else ParseInitExpression(ts, p)
  }

  /** A declaration in the init slot, with its own ';'. */
  function ParseInitDeclaration(ts: seq<Token>, p: nat): (r: PResult<Option<Stmt>>)
    requires Terminated(ts) && p < |ts|
    ensures r.Success? ==> p < r.value.next < |ts|
    decreases |ts| - p, 22
  {
    var d :- ParseVarDecl(ts, p);
    Success(Parsed(Some(d.node), d.next))
  }

  /** An assignment in the init slot, with its own ';'. */
  function ParseInitAssignment(ts: seq<Token>, p: nat): (r: PResult<Option<Stmt>>)
    requires Terminated(ts) && p < |ts|
    ensures r.Success? ==> p < r.value.next < |ts|
    decreases |ts| - p, 22
  {
    var a :- ParseAssignment(ts, p);
    Success(Parsed(Some(a.node), a.next))
  }

  /** An expression in the init slot, then the ';' after the slot. */
  function ParseInitExpression(ts: seq<Token>, p: nat): (r: PResult<Option<Stmt>>)
    requires Terminated(ts) && p < |ts|
    ensures r.Success? ==> p < r.value.next < |ts|
    decreases |ts| - p, 20
  {
    var e :- ParseExpression(ts, p);
    var semi :- Consume(ts, e.next, Semicolon, ExpectedForInitSemicolon);
    Success(Parsed(Some(ExprStmt(e.node, e.node.Tok())), semi.next))
  }

  /** The increment slot: empty before ')', an assignment without ';', a call, or an
      expression. */
  function ParseForIncrement(ts: seq<Token>, p: nat): (r: PResult<Option<Stmt>>)
    requires Terminated(ts) && p < |ts|
    ensures r.Success? ==> p <= r.value.next < |ts|
    decreases |ts| - p, 23
  {
    if ts[p].kind == CloseParen then Success(Parsed(None, p))
    else if ts[p].kind == Identifier then ParseNameIncrement(ts, p)
    else ParseIncrementExpression(ts, p)
  }

  /** An increment starting with a name: an assignment without ';' before '=', a call
      before '(', otherwise an expression. */
  function ParseNameIncrement(ts: seq<Token>, p: nat): (r: PResult<Option<Stmt>>)
    requires Terminated(ts) && p < |ts| && ts[p].kind == Identifier
    ensures r.Success? ==> p < r.value.next < |ts|
    decreases |ts| - p, 22
  {
    var next := Tok(ts, p + 1).kind;
    if next == TokenType.Assign then
      var a :- ParseAssignmentNoSemicolon(ts, p);
      Success(Parsed(Some(a.node), a.next))
    else if next == OpenParen then
      var c :- ParseCall(ts, p);
      Success(Parsed(Some(ExprStmt(c.node, c.node.Tok())), c.next))
    else ParseIncrementExpression(ts, p)
  }

  /** An expression as the increment. */
  function ParseIncrementExpression(ts: seq<Token>, p: nat): (r: PResult<Option<Stmt>>)
    requires Terminated(ts) && p < |ts|
    ensures r.Success? ==> p < r.value.next < |ts|
    decreases |ts| - p, 20
  {
    var e :- ParseExpression(ts, p);
    Success(Parsed(Some(ExprStmt(e.node, e.node.Tok())), e.next))
  }

  // ---------------------------------------------------------------------------------------
  // Functions and programs

  /** `ParseParameter`: name ':' type. */
  function ParseParameter(ts: seq<Token>, i: nat): (r: PResult<Param>)
    requires Terminated(ts) && i < |ts|
    ensures r.Success? ==> i < r.value.next < |ts|
  {
    var name :- Consume(ts, i, Identifier, ExpectedParamName);
    var colon :- Consume(ts, name.next, Colon, ExpectedParamColon);
    var ty :- ParseType(ts, colon.next);
    Success(Parsed(NewParameter(name.node, ty.node, None), ty.next))
  }

  /** The parameters of a declaration: none before ')', otherwise parameters separated
      by ','. */
  function ParseParameterList(ts: seq<Token>, j: nat): (r: PResult<seq<Param>>)
    requires Terminated(ts) && j < |ts|
    ensures r.Success? ==> j <= r.value.next < |ts|
  {
    if ts[j].kind != CloseParen then
      var first :- ParseParameter(ts, j);
      ParseParameters(ts, first.next, [first.node])
    else Success(Parsed([], j))
  }

  /** The parameter loop: each ',' is followed by one more parameter. */
  function ParseParameters(ts: seq<Token>, j: nat, ps: seq<Param>): (r: PResult<seq<Param>>)
    requires Terminated(ts) && j < |ts|
    ensures r.Success? ==> j <= r.value.next < |ts|
    decreases |ts| - j
  {
    if ts[j].kind == Comma then
      var p :- ParseParameter(ts, j + 1);
      ParseParameters(ts, p.next, ps + [p.node])
    else Success(Parsed(ps, j))
  }

  /** `ParseFunctionDeclaration`: func name '(' parameters ')' ':' type block. */
  function ParseFunction(ts: seq<Token>, i: nat): (r: PResult<Function>)
    requires Terminated(ts) && i < |ts|
    ensures r.Success? ==> i < r.value.next < |ts|
  {
    var funcTok :- Consume(ts, i, Func, ExpectedFunc);
    var name :- Consume(ts, funcTok.next, Identifier, ExpectedFuncName);
    var open :- Consume(ts, name.next, OpenParen, ExpectedFuncOpen);
    var ps :- ParseParameterList(ts, open.next);
    var close :- Consume(ts, ps.next, CloseParen, ExpectedFuncClose);
    var colon :- Consume(ts, close.next, Colon, ExpectedReturnTypeColon);
    var ret :- ParseType(ts, colon.next);
    var body :- ParseBlock(ts, ret.next);
    Success(Parsed(NewFunctionDeclaration(name.node, Some(ps.node), ret.node, body.node, Some(funcTok.node)), body.next))
  }

  /** The loop of `ParseProgram`: function declarations until EOF. */
  function ParseFunctions(ts: seq<Token>, j: nat, fs: seq<Function>): (r: Result<seq<Function>, ParseError>)
    requires Terminated(ts) && j < |ts|
    decreases |ts| - j
  {
    if ts[j].kind == EOF then Success(fs)
    else
      var f :- ParseFunction(ts, j);
      ParseFunctions(ts, f.next, fs + [f.node])
  }

  /** `ParseProgram` from index `i`. */
  function ParseProgramFrom(ts: seq<Token>, i: nat): (r: Result<Program, ParseError>)
    requires Terminated(ts) && i < |ts|
  {
    var fs :- ParseFunctions(ts, i, []);
    Success(Program(fs))
  }

  /** `ParseProgram` over the whole stream. */
  function ParseProgram(ts: seq<Token>): (r: Result<Program, ParseError>)
    requires Terminated(ts)
  {
    ParseProgramFrom(ts, 0)
  }
}
