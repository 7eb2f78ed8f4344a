/** Semantic errors (MACSLang.SemanticAnalyzer/SemanticError.cs) and the reasons the symbol
    table and the analyzer give for them (SymbolTable.cs, SemanticAnalyzer.cs). */
module SemanticErrors {
  import opened Wrappers
  import opened Tokens

  /** What went wrong, with the names, types and counts each message quotes. */
  datatype Reason =
    | SymbolAlreadyDefined(name: string)
    | VariableAlreadyDeclared(name: string)
    | InitializerMismatch(name: string, expected: TokenType, found: TokenType)
    | UndeclaredAssignTarget(name: string)
    | AssignTargetNotVariable(name: string)
    | AssignmentMismatch(name: string, expected: TokenType, found: TokenType)
    | UndeclaredInputTarget(name: string)
    | InputTargetNotVariable(name: string)
    | ReturnOutsideFunction
    | ReturnMismatch(name: string, expected: TokenType, found: TokenType)
    | IfCondition(found: TokenType)
    | WhileCondition(found: TokenType)
    | ForCondition(found: TokenType)
    | PlusOperands(left: TokenType, right: TokenType)
    | ArithmeticOperands(left: TokenType, right: TokenType)
    | EqualityOperands(left: TokenType, right: TokenType)
    | ComparisonOperands(left: TokenType, right: TokenType)
    | LogicalOperands(left: TokenType, right: TokenType)
    | UnknownBinaryOperator(lexeme: string)
    | NegationOperand(found: TokenType)
    | NotOperand(found: TokenType)
    | UnknownUnaryOperator(lexeme: string)
    | UnexpectedLiteral(kind: TokenType)
    | UndeclaredIdentifier(name: string)
    | IdentifierNotVariable(name: string)
    | UndeclaredFunction(name: string)
    | NotAFunction(name: string)
    | ArgumentCount(name: string, parameterCount: nat, argumentCount: nat)
    | ArgumentMismatch(position: nat, name: string, expected: TokenType, found: TokenType)

  function Quoted(k: TokenType): string {
    "'" + KindName(k) + "'"
  }

  /** The message text the source interpolates for each reason. */
  function ReasonText(r: Reason): string {
    match r
    case SymbolAlreadyDefined(n) => "Símbolo '" + n + "' já definido neste escopo."
    case VariableAlreadyDeclared(n) => "Variável '" + n + "' já declarada neste escopo."
    case InitializerMismatch(n, e, f) =>
      "Tipo incompatível na inicialização da variável '" + n + "'. Esperado " + Quoted(e) + ", encontrado " + Quoted(f) + "."
    case UndeclaredAssignTarget(n) => "Variável '" + n + "' não declarada."
    case AssignTargetNotVariable(n) => "Não é possível atribuir a '" + n + "'. Ele não é uma variável."
    case AssignmentMismatch(n, e, f) =>
      "Tipo incompatível na atribuição para '" + n + "'. Esperado " + Quoted(e) + ", encontrado " + Quoted(f) + "."
    case UndeclaredInputTarget(n) => "Variável '" + n + "' não declarada para input."
    case InputTargetNotVariable(n) => "Não é possível ler input para '" + n + "'. Ele não é uma variável."
    case ReturnOutsideFunction => "Comando 'return' fora de uma função."
    case ReturnMismatch(n, e, f) =>
      "Tipo de retorno incompatível para a função '" + n + "'. Esperado " + Quoted(e) + ", encontrado " + Quoted(f) + "."
    case IfCondition(f) => "Condição do 'if' deve ser booleana. Encontrado " + Quoted(f) + "."
    case WhileCondition(f) => "Condição do 'while' deve ser booleana. Encontrado " + Quoted(f) + "."
    case ForCondition(f) => "Condição do 'for' deve ser booleana. Encontrado " + Quoted(f) + "."
    case PlusOperands(a, b) =>
      "Operador '+' espera operandos numéricos ou um dos operandos deve ser do tipo string para concatenação. Encontrado "
        + Quoted(a) + " e " + Quoted(b) + "."
    case ArithmeticOperands(a, b) =>
      "Operadores aritméticos (- * / %) esperam operandos numéricos. Encontrado " + Quoted(a) + " e " + Quoted(b) + "."
    case EqualityOperands(a, b) =>
      "Operadores de igualdade (== !=) esperam operandos comparáveis. Encontrado " + Quoted(a) + " e " + Quoted(b) + "."
    case ComparisonOperands(a, b) =>
      "Operadores de comparação (< > <= >=) esperam operandos numéricos. Encontrado " + Quoted(a) + " e " + Quoted(b) + "."
    case LogicalOperands(a, b) =>
      "Operadores lógicos (&& ||) esperam operandos booleanos. Encontrado " + Quoted(a) + " e " + Quoted(b) + "."
    case UnknownBinaryOperator(t) => "Operador binário desconhecido: " + t
    case NegationOperand(f) => "Operador unário '-' espera operando numérico. Encontrado " + Quoted(f) + "."
    case NotOperand(f) => "Operador unário '!' espera operando booleano. Encontrado " + Quoted(f) + "."
    case UnknownUnaryOperator(t) => "Operador unário desconhecido: " + t
    case UnexpectedLiteral(k) => "Tipo de literal inesperado: " + KindName(k)
    case UndeclaredIdentifier(n) => "Identificador '" + n + "' não declarado."
    case IdentifierNotVariable(n) => "O identificador '" + n + "' não é uma variável utilizável em uma expressão."
    case UndeclaredFunction(n) => "Função '" + n + "' não declarada."
    case NotAFunction(n) => "O identificador '" + n + "' não é uma função."
    case ArgumentCount(n, e, f) =>
      "Número incorreto de argumentos para a função '" + n + "'. Esperado " + NatToString(e) + ", encontrado "
        + NatToString(f) + "."
    case ArgumentMismatch(p, n, e, f) =>
      "Tipo do argumento " + NatToString(p) + " incompatível para a função '" + n + "'. Esperado " + Quoted(e)
        + ", encontrado " + Quoted(f) + "."
  }

  /** The common head of every semantic error message. */
  const Prefix: string := "Erro Semântico: "

  /** `SemanticError.FormatErrorMessage(message, errorToken)`. */
  function FormatErrorMessage(message: string, errorToken: Option<Token>): (r: string)
    ensures Prefix <= r
    ensures errorToken.None? ==> r == Prefix + message
    ensures errorToken.Some? ==> Prefix + message + " em Linha: " <= r
  {
    match errorToken
    case None => Prefix + message
    case Some(t) =>
      Prefix + message + " em Linha: " + IntToString(t.line) + ", Coluna: " + IntToString(t.column)
        + ". Token: '" + t.lexeme + "' (" + KindName(t.kind) + ")"
  }

  /** A thrown `SemanticError`: its reason and its `ErrorToken`, absent when the source passes
      none. */
  datatype SemanticError = SemanticError(reason: Reason, errorToken: Option<Token>) {
    /** The exception's `Message`. */
    function Message(): string {
      FormatErrorMessage(ReasonText(reason), errorToken)
    }
  }
}
