/** The typing rules of the semantic analyzer (MACSLang.SemanticAnalyzer/SemanticAnalyzer.cs):
    assignability, numeric and comparable types, and the result types of literals and
    operators. Types are the five type keywords; the rules are total over all token kinds. */
module Typing {
  import opened Wrappers
  import opened Tokens
  import opened SemanticErrors
  import Ast

  /** `IsAssignable(target, source)`, branch by branch. The third to fifth branches add nothing
      over the first for the five types: TRUE and FALSE are token kinds, never types. */
  predicate IsAssignable(target: TokenType, source: TokenType) {
    if target == source then true
    else if target == FloatKeyword && source == IntKeyword then true
    else if target == BoolKeyword && (source == True || source == False) then true
    else if target == StringKeyword && source == StringKeyword then true
    else if target == CharKeyword && source == CharKeyword then true
    else false
  }

  /** `IsNumeric(type)`: int or float. */
  predicate IsNumeric(t: TokenType) {
    t == IntKeyword || t == FloatKeyword
  }

  /** `AreComparable(type1, type2)`, branch by branch. */
  predicate AreComparable(a: TokenType, b: TokenType) {
    if IsNumeric(a) && IsNumeric(b) then true
    else if a == BoolKeyword && b == BoolKeyword then true
    else if a == StringKeyword && b == StringKeyword then true
    else if a == CharKeyword && b == CharKeyword then true
    else false
  }

  /** The type of an arithmetic result: float when either side is float, else int. */
  function NumericResult(l: TokenType, r: TokenType): TokenType {
    if l == FloatKeyword || r == FloatKeyword then FloatKeyword else IntKeyword
  }

  /** The operator groups of the `switch` in `Visit(BinaryExpressionNode)`. */
  datatype BinaryGroup = PlusGroup | Arithmetic | Equality | Comparison | Logical | NoGroup

  function GroupOf(k: TokenType): BinaryGroup {
    match k
    case Plus => PlusGroup
    case Minus | Multiply | Divide | Modulo => Arithmetic
    case Equals | NotEquals => Equality
    case LessThan | GreaterThan | LessEqual | GreaterEqual => Comparison
    case And | Or => Logical
    case _ => NoGroup
  }

  function Throw<T>(reason: Reason, at: Token): Result<T, SemanticError> {
    Failure(SemanticError(reason, Some(at)))
  }

  /** The type `Visit(BinaryExpressionNode)` records for operator `op` over operand types `l`
      and `r`, or the error it throws at the operator. */
  function BinaryType(op: Token, l: TokenType, r: TokenType): (res: Result<TokenType, SemanticError>)
    ensures res.Success? ==> IsTypeKeyword(res.value)
    ensures res.Failure? ==> res.error.errorToken == Some(op)
  {
    match GroupOf(op.kind)
    case PlusGroup =>
      if l == StringKeyword || r == StringKeyword then Success(StringKeyword)
      else if IsNumeric(l) && IsNumeric(r) then Success(NumericResult(l, r))
      else Throw(PlusOperands(l, r), op)
    case Arithmetic =>
      if !IsNumeric(l) || !IsNumeric(r) then Throw(ArithmeticOperands(l, r), op)
      else Success(NumericResult(l, r))
    case Equality =>
      if !AreComparable(l, r) then Throw(EqualityOperands(l, r), op) else Success(BoolKeyword)
    case Comparison =>
      if !IsNumeric(l) || !IsNumeric(r) then Throw(ComparisonOperands(l, r), op) else Success(BoolKeyword)
    case Logical =>
      if l != BoolKeyword || r != BoolKeyword then Throw(LogicalOperands(l, r), op) else Success(BoolKeyword)
    case NoGroup => Throw(UnknownBinaryOperator(op.lexeme), op)
  }

  /** The type `Visit(UnaryExpressionNode)` records, or the error it throws at the operator. */
  function UnaryType(op: Token, t: TokenType): (res: Result<TokenType, SemanticError>)
    ensures res.Success? ==> IsTypeKeyword(res.value)
    ensures res.Failure? ==> res.error.errorToken == Some(op)
  {
    match op.kind
    case Minus => if !IsNumeric(t) then Throw(NegationOperand(t), op) else Success(t)
    case Not => if t != BoolKeyword then Throw(NotOperand(t), op) else Success(BoolKeyword)
    case _ => Throw(UnknownUnaryOperator(op.lexeme), op)
  }

  /** The type `Visit(LiteralExpressionNode)` records for a literal token kind. */
  function LiteralType(k: TokenType): (r: Option<TokenType>)
    ensures r.Some? ==> IsTypeKeyword(r.value)
  {
    match k
    case IntLiteral => Some(IntKeyword)
    case FloatLiteral => Some(FloatKeyword)
    case StringLiteral => Some(StringKeyword)
    case CharLiteral => Some(CharKeyword)
    case True | False => Some(BoolKeyword)
    case _ => None
  }

  // ---------------------------------------------------------------------------------------
  // Properties

  /** Over the five types, assignability is equality plus the widening of int to float; so
      float to int, bool to int and string to int are all refused. */
  lemma AssignableRule(target: TokenType, source: TokenType)
    requires IsTypeKeyword(source)
    ensures IsAssignable(target, source) <==> target == source || (target == FloatKeyword && source == IntKeyword)
  {
  }

  /** The third branch of `IsAssignable` is dead for types but reachable for token kinds. */
  lemma BoolBranchOnlyForTokenKinds()
    ensures IsAssignable(BoolKeyword, True) && !IsTypeKeyword(True)
  {
  }

  /** On types, assignability is a partial order: reflexive, antisymmetric and transitive. */
  lemma AssignableOrder(a: TokenType, b: TokenType, c: TokenType)
    requires IsTypeKeyword(a) && IsTypeKeyword(b) && IsTypeKeyword(c)
    ensures IsAssignable(a, a)
    ensures IsAssignable(a, b) && IsAssignable(b, a) ==> a == b
    ensures IsAssignable(a, b) && IsAssignable(b, c) ==> IsAssignable(a, c)
  {
    AssignableRule(a, b);
    AssignableRule(b, a);
    AssignableRule(b, c);
    AssignableRule(a, c);
  }

  /** Over the five types, two types are comparable exactly when both are numeric or they are
      the same type; the relation is symmetric. */
  lemma ComparableRule(a: TokenType, b: TokenType)
    requires IsTypeKeyword(a) && IsTypeKeyword(b)
    ensures AreComparable(a, b) <==> (IsNumeric(a) && IsNumeric(b)) || a == b
    ensures AreComparable(a, b) == AreComparable(b, a)
  {
  }

  /** `+`: a string on either side makes a string, whatever the other side (a bool or a char
      included); otherwise both sides must be numeric, and the sum is float exactly when one
      side is float. */
  lemma PlusTyping(op: Token, l: TokenType, r: TokenType)
    requires op.kind == Plus
    ensures var res := BinaryType(op, l, r);
      && (res.Success? <==> l == StringKeyword || r == StringKeyword || (IsNumeric(l) && IsNumeric(r)))
      && (l == StringKeyword || r == StringKeyword ==> res == Success(StringKeyword))
      && (res.Success? && l != StringKeyword && r != StringKeyword ==>
            (res.value == FloatKeyword <==> l == FloatKeyword || r == FloatKeyword))
      && (res.Failure? ==> res.error == SemanticError(PlusOperands(l, r), Some(op)))
  {
  }

  /** `- * / %` need numeric sides and give float exactly when one side is float. */
  lemma ArithmeticTyping(op: Token, l: TokenType, r: TokenType)
    requires GroupOf(op.kind) == Arithmetic
    ensures var res := BinaryType(op, l, r);
      && (res.Success? <==> IsNumeric(l) && IsNumeric(r))
      && (res.Success? ==> IsNumeric(res.value) && (res.value == FloatKeyword <==> l == FloatKeyword || r == FloatKeyword))
      && (res.Failure? ==> res.error == SemanticError(ArithmeticOperands(l, r), Some(op)))
  {
  }

  /** `== !=` need comparable sides; `< > <= >=` numeric sides; `&& ||` bool sides. All give
      bool. */
  lemma RelationalTyping(op: Token, l: TokenType, r: TokenType)
    requires GroupOf(op.kind) == Equality || GroupOf(op.kind) == Comparison || GroupOf(op.kind) == Logical
    ensures var res := BinaryType(op, l, r);
      && (res.Success? ==> res.value == BoolKeyword)
      && (GroupOf(op.kind) == Equality ==> (res.Success? <==> AreComparable(l, r)))
      && (GroupOf(op.kind) == Comparison ==> (res.Success? <==> IsNumeric(l) && IsNumeric(r)))
      && (GroupOf(op.kind) == Logical ==> (res.Success? <==> l == BoolKeyword && r == BoolKeyword))
  {
  }

  /** The groups are exactly the operators the `switch` names. */
  lemma GroupsOfOperators(k: TokenType)
    ensures GroupOf(k) == Arithmetic <==> k == Minus || k == Multiply || k == Divide || k == Modulo
    ensures GroupOf(k) == Equality <==> k == Equals || k == NotEquals
    ensures GroupOf(k) == Comparison <==> k == LessThan || k == GreaterThan || k == LessEqual || k == GreaterEqual
    ensures GroupOf(k) == Logical <==> k == And || k == Or
    ensures GroupOf(k) == NoGroup <==> !IsOperator(k) || k == Not
  {
  }

  /** Unary `-` keeps a numeric type and `!` turns bool into bool; nothing else is accepted. */
  lemma UnaryTyping(op: Token, t: TokenType)
    ensures var res := UnaryType(op, t);
      && (op.kind == Minus ==> (res.Success? <==> IsNumeric(t)) && (res.Success? ==> res.value == t))
      && (op.kind == Not ==> (res.Success? <==> t == BoolKeyword) && (res.Success? ==> res.value == BoolKeyword))
      && (op.kind != Minus && op.kind != Not ==> res == Throw(UnknownUnaryOperator(op.lexeme), op))
  {
  }

  /** Every literal node the constructor builds has a literal type, so the analyzer's default
      branch is unreachable for trees the parser produces. */
  lemma ConstructedLiteralsHaveTypes(t: Token)
    requires Ast.NewLiteral(t).Success?
    ensures LiteralType(t.kind).Some?
  {
  }
}
