/** Properties of the grammar in `ParserSpec`: the shape of the trees the expression ladder
    builds, the dispatch of statements, and the rules of the `for` header. */
module ParserProperties {
  import opened Wrappers
  import opened Tokens
  import opened Ast
  import opened ParserSpec

  /** The loop guards of the binary levels test `Precedence`; level by level it holds
      exactly for the operator kinds the source's `Match` calls list. */
  lemma PrecedenceLevels(k: TokenType)
    ensures Precedence(k) == 1 <==> k == Or
    ensures Precedence(k) == 2 <==> k == And
    ensures Precedence(k) == 3 <==> k == Equals || k == NotEquals
    ensures Precedence(k) == 4 <==> k == LessThan || k == GreaterThan || k == LessEqual || k == GreaterEqual
    ensures Precedence(k) == 5 <==> k == Plus || k == Minus
    ensures Precedence(k) == 6 <==> k == Multiply || k == Divide || k == Modulo
  {
  }

  // ---------------------------------------------------------------------------------------
  // Programs

  /** A stream holding only EOF is the empty program. */
  lemma EmptyProgram(eof: Token)
    requires eof.kind == EOF
    ensures ParseProgram([eof]) == Success(Program([]))
  {
  }

  /** A program is its function declarations in order: when a declaration parses, the
      program from there is that declaration followed by the program after it. */
  lemma ProgramIsFunctions(ts: seq<Token>, j: nat, f: Function, next: nat)
    requires Terminated(ts) && j < |ts| && ts[j].kind != EOF
    requires ParseFunction(ts, j) == Success(Parsed(f, next))
    ensures next < |ts|
    ensures ParseProgramFrom(ts, j).Success? <==> ParseProgramFrom(ts, next).Success?
    ensures ParseProgramFrom(ts, j).Success? ==>
      ParseProgramFrom(ts, j).value.functions == [f] + ParseProgramFrom(ts, next).value.functions
    ensures ParseProgramFrom(ts, j).Failure? ==> ParseProgramFrom(ts, j).error == ParseProgramFrom(ts, next).error
  {
    assert ParseFunctions(ts, j, []) == ParseFunctions(ts, next, [] + [f]);
    EmptyAppend([f]);
    FunctionsPrefix(ts, next, [f]);
  }

  /** The function loop just prepends what it has already collected. */
  lemma {:induction false} FunctionsPrefix(ts: seq<Token>, j: nat, fs: seq<Function>)
    requires Terminated(ts) && j < |ts|
    ensures ParseFunctions(ts, j, fs).Success? <==> ParseFunctions(ts, j, []).Success?
    ensures ParseFunctions(ts, j, fs).Success? ==> ParseFunctions(ts, j, fs).value == fs + ParseFunctions(ts, j, []).value
    ensures ParseFunctions(ts, j, fs).Failure? ==> ParseFunctions(ts, j, fs).error == ParseFunctions(ts, j, []).error
    decreases |ts| - j
  {
    if ts[j].kind != EOF {
      var f := ParseFunction(ts, j);
      if f.Success? {
        var g, next := f.value.node, f.value.next;
        assert ParseFunctions(ts, j, fs) == ParseFunctions(ts, next, fs + [g]);
        assert ParseFunctions(ts, j, []) == ParseFunctions(ts, next, [] + [g]);
        EmptyAppend([g]);
        FunctionsPrefix(ts, next, fs + [g]);
        FunctionsPrefix(ts, next, [g]);
        var rest := ParseFunctions(ts, next, []);
        if rest.Success? {
          AppendAssociative(fs, [g], rest.value);
        }
      }
    }
  }

  lemma EmptyAppend<T>(s: seq<T>)
    ensures [] + s == s
  {
  }

  lemma AppendAssociative<T>(a: seq<T>, b: seq<T>, c: seq<T>)
    ensures a + b + c == a + (b + c)
  {
  }

  // ---------------------------------------------------------------------------------------
  // Expressions

  /** An operand followed by a token that is no binary operator is a whole expression. */
  lemma OperandIsExpression(ts: seq<Token>, i: nat, x: Expr, j: nat)
    requires Terminated(ts) && i < |ts|
    requires ParseUnary(ts, i) == Success(Parsed(x, j)) && Precedence(ts[j].kind) == 0
    ensures ParseExpression(ts, i) == Success(Parsed(x, j))
  {
    var r := Success(Parsed(x, j));
    assert ParseMultiplicativeRest(ts, j, x) == r;
    assert ParseMultiplicative(ts, i) == r;
    assert ParseAdditiveRest(ts, j, x) == r;
    assert ParseAdditive(ts, i) == r;
    assert ParseComparisonRest(ts, j, x) == r;
    assert ParseComparison(ts, i) == r;
    assert ParseEqualityRest(ts, j, x) == r;
    assert ParseEquality(ts, i) == r;
    assert ParseLogicalAndRest(ts, j, x) == r;
    assert ParseLogicalAnd(ts, i) == r;
    assert ParseLogicalOrRest(ts, j, x) == r;
    assert ParseLogicalOr(ts, i) == r;
  }

  /** Left associativity: `a - b - c` is `(a - b) - c`. Three multiplicative operands joined
      by two additive operators fold into the left operand. */
  lemma AdditiveLeftAssociative(ts: seq<Token>, i: nat, a: Expr, j: nat, b: Expr, k: nat, c: Expr, m: nat)
    requires Terminated(ts) && i < |ts|
    requires ParseMultiplicative(ts, i) == Success(Parsed(a, j)) && Precedence(ts[j].kind) == 5
    requires ParseMultiplicative(ts, j + 1) == Success(Parsed(b, k)) && Precedence(ts[k].kind) == 5
    requires ParseMultiplicative(ts, k + 1) == Success(Parsed(c, m)) && Precedence(ts[m].kind) != 5
    ensures ParseAdditive(ts, i) == Success(Parsed(Binary(Binary(a, ts[j], b, Var), ts[k], c, Var), m))
  {
    var ab := Binary(a, ts[j], b, Var);
    var abc := Binary(ab, ts[k], c, Var);
    AdditiveStep(ts, j, a, b, k);
    AdditiveStep(ts, k, ab, c, m);
    assert ParseAdditiveRest(ts, m, abc) == Success(Parsed(abc, m));
  }

  /** The same for `||`, the loosest level: `a || b || c` is `(a || b) || c`. */
  lemma LogicalOrLeftAssociative(ts: seq<Token>, i: nat, a: Expr, j: nat, b: Expr, k: nat, c: Expr, m: nat)
    requires Terminated(ts) && i < |ts|
    requires ParseLogicalAnd(ts, i) == Success(Parsed(a, j)) && ts[j].kind == Or
    requires ParseLogicalAnd(ts, j + 1) == Success(Parsed(b, k)) && ts[k].kind == Or
    requires ParseLogicalAnd(ts, k + 1) == Success(Parsed(c, m)) && ts[m].kind != Or
    ensures ParseExpression(ts, i) == Success(Parsed(Binary(Binary(a, ts[j], b, Var), ts[k], c, Var), m))
  {
    var ab := Binary(a, ts[j], b, Var);
    var abc := Binary(ab, ts[k], c, Var);
    LogicalOrStep(ts, j, a, b, k);
    LogicalOrStep(ts, k, ab, c, m);
    assert ParseLogicalOrRest(ts, m, abc) == Success(Parsed(abc, m));
    assert ParseLogicalOr(ts, i) == Success(Parsed(abc, m));
  }

  /** One turn of the `||` loop. */
  lemma LogicalOrStep(ts: seq<Token>, j: nat, left: Expr, right: Expr, next: nat)
    requires Terminated(ts) && j < |ts| && ts[j].kind == Or
    requires ParseLogicalAnd(ts, j + 1) == Success(Parsed(right, next))
    ensures next < |ts| && ParseLogicalOrRest(ts, j, left) == ParseLogicalOrRest(ts, next, Binary(left, ts[j], right, Var))
  {
  }

  /** Precedence: in `a + b * c` the whole product `b * c` is the right operand of the
      sum. */
  lemma MultiplicationBindsTighter(ts: seq<Token>, i: nat, a: Expr, j: nat, b: Expr, k: nat, c: Expr, m: nat)
    requires Terminated(ts) && i < |ts|
    requires ParseMultiplicative(ts, i) == Success(Parsed(a, j)) && Precedence(ts[j].kind) == 5
    requires ParseUnary(ts, j + 1) == Success(Parsed(b, k)) && Precedence(ts[k].kind) == 6
    requires ParseUnary(ts, k + 1) == Success(Parsed(c, m)) && Precedence(ts[m].kind) < 5
    ensures ParseAdditive(ts, i) == Success(Parsed(Binary(a, ts[j], Binary(b, ts[k], c, Var), Var), m))
  {
    var bc := Binary(b, ts[k], c, Var);
    Product(ts, j + 1, b, k, c, m);
    Sum(ts, i, a, j, bc, m);
  }

  /** One turn of the additive loop. */
  lemma AdditiveStep(ts: seq<Token>, j: nat, left: Expr, right: Expr, next: nat)
    requires Terminated(ts) && j < |ts| && Precedence(ts[j].kind) == 5
    requires ParseMultiplicative(ts, j + 1) == Success(Parsed(right, next))
    ensures next < |ts| && ParseAdditiveRest(ts, j, left) == ParseAdditiveRest(ts, next, Binary(left, ts[j], right, Var))
  {
  }

  /** Two unary operands joined by a multiplicative operator form one product. */
  lemma Product(ts: seq<Token>, i: nat, b: Expr, k: nat, c: Expr, m: nat)
    requires Terminated(ts) && i < |ts|
    requires ParseUnary(ts, i) == Success(Parsed(b, k)) && Precedence(ts[k].kind) == 6
    requires ParseUnary(ts, k + 1) == Success(Parsed(c, m)) && Precedence(ts[m].kind) != 6
    ensures ParseMultiplicative(ts, i) == Success(Parsed(Binary(b, ts[k], c, Var), m))
  {
    var bc := Binary(b, ts[k], c, Var);
    MultiplicativeStep(ts, k, b, c, m);
    assert ParseMultiplicativeRest(ts, m, bc) == Success(Parsed(bc, m));
  }

  /** One turn of the multiplicative loop. */
  lemma MultiplicativeStep(ts: seq<Token>, j: nat, left: Expr, right: Expr, next: nat)
    requires Terminated(ts) && j < |ts| && Precedence(ts[j].kind) == 6
    requires ParseUnary(ts, j + 1) == Success(Parsed(right, next))
    ensures next < |ts| && ParseMultiplicativeRest(ts, j, left) == ParseMultiplicativeRest(ts, next, Binary(left, ts[j], right, Var))
  {
  }

  /** Precedence between the logical levels: in `a || b && c` the conjunction is the right
      operand of the disjunction. */
  lemma AndBindsTighterThanOr(ts: seq<Token>, i: nat, a: Expr, j: nat, b: Expr, k: nat, c: Expr, m: nat)
    requires Terminated(ts) && i < |ts|
    requires ParseEquality(ts, i) == Success(Parsed(a, j)) && ts[j].kind == Or
    requires ParseEquality(ts, j + 1) == Success(Parsed(b, k)) && ts[k].kind == And
    requires ParseEquality(ts, k + 1) == Success(Parsed(c, m)) && ts[m].kind != And && ts[m].kind != Or
    ensures ParseExpression(ts, i) == Success(Parsed(Binary(a, ts[j], Binary(b, ts[k], c, Var), Var), m))
  {
    var bc := Binary(b, ts[k], c, Var);
    Conjunction(ts, j + 1, b, k, c, m);
    assert ParseLogicalAndRest(ts, j, a) == Success(Parsed(a, j));
    assert ParseLogicalAnd(ts, i) == Success(Parsed(a, j));
    Disjunction(ts, i, a, j, bc, m);
  }

  /** Two conjunction-level operands joined by `||` form one disjunction, the whole
      expression. */
  lemma Disjunction(ts: seq<Token>, i: nat, a: Expr, j: nat, b: Expr, m: nat)
    requires Terminated(ts) && i < |ts|
    requires ParseLogicalAnd(ts, i) == Success(Parsed(a, j)) && ts[j].kind == Or
    requires ParseLogicalAnd(ts, j + 1) == Success(Parsed(b, m)) && ts[m].kind != Or
    ensures ParseExpression(ts, i) == Success(Parsed(Binary(a, ts[j], b, Var), m))
  {
    var ab := Binary(a, ts[j], b, Var);
    LogicalOrStep(ts, j, a, b, m);
    assert ParseLogicalOrRest(ts, m, ab) == Success(Parsed(ab, m));
    assert ParseLogicalOr(ts, i) == Success(Parsed(ab, m));
  }

  /** Two equality-level operands joined by `&&` form one conjunction. */
  lemma Conjunction(ts: seq<Token>, i: nat, b: Expr, k: nat, c: Expr, m: nat)
    requires Terminated(ts) && i < |ts|
    requires ParseEquality(ts, i) == Success(Parsed(b, k)) && ts[k].kind == And
    requires ParseEquality(ts, k + 1) == Success(Parsed(c, m)) && ts[m].kind != And
    ensures ParseLogicalAnd(ts, i) == Success(Parsed(Binary(b, ts[k], c, Var), m))
  {
    var bc := Binary(b, ts[k], c, Var);
    LogicalAndStep(ts, k, b, c, m);
    assert ParseLogicalAndRest(ts, m, bc) == Success(Parsed(bc, m));
  }

  /** One turn of the `&&` loop. */
  lemma LogicalAndStep(ts: seq<Token>, j: nat, left: Expr, right: Expr, next: nat)
    requires Terminated(ts) && j < |ts| && ts[j].kind == And
    requires ParseEquality(ts, j + 1) == Success(Parsed(right, next))
    ensures next < |ts| && ParseLogicalAndRest(ts, j, left) == ParseLogicalAndRest(ts, next, Binary(left, ts[j], right, Var))
  {
  }

  /** Left associativity of equality: `a == b != c` is `(a == b) != c`. */
  lemma EqualityLeftAssociative(ts: seq<Token>, i: nat, a: Expr, j: nat, b: Expr, k: nat, c: Expr, m: nat)
    requires Terminated(ts) && i < |ts|
    requires ParseComparison(ts, i) == Success(Parsed(a, j)) && Precedence(ts[j].kind) == 3
    requires ParseComparison(ts, j + 1) == Success(Parsed(b, k)) && Precedence(ts[k].kind) == 3
    requires ParseComparison(ts, k + 1) == Success(Parsed(c, m)) && Precedence(ts[m].kind) != 3
    ensures ParseEquality(ts, i) == Success(Parsed(Binary(Binary(a, ts[j], b, Var), ts[k], c, Var), m))
  {
    var ab := Binary(a, ts[j], b, Var);
    var abc := Binary(ab, ts[k], c, Var);
    EqualityStep(ts, j, a, b, k);
    EqualityStep(ts, k, ab, c, m);
    assert ParseEqualityRest(ts, m, abc) == Success(Parsed(abc, m));
  }

  /** Precedence: in `a == b < c` the whole comparison `b < c` is the right operand of the
      equality. */
  lemma ComparisonBindsTighterThanEquality(ts: seq<Token>, i: nat, a: Expr, j: nat, b: Expr, k: nat, c: Expr, m: nat)
    requires Terminated(ts) && i < |ts|
    requires ParseComparison(ts, i) == Success(Parsed(a, j)) && Precedence(ts[j].kind) == 3
    requires ParseAdditive(ts, j + 1) == Success(Parsed(b, k)) && Precedence(ts[k].kind) == 4
    requires ParseAdditive(ts, k + 1) == Success(Parsed(c, m)) && Precedence(ts[m].kind) < 3
    ensures ParseEquality(ts, i) == Success(Parsed(Binary(a, ts[j], Binary(b, ts[k], c, Var), Var), m))
  {
    var bc := Binary(b, ts[k], c, Var);
    Comparison(ts, j + 1, b, k, c, m);
    EqualityStep(ts, j, a, bc, m);
    assert ParseEqualityRest(ts, m, Binary(a, ts[j], bc, Var)) == Success(Parsed(Binary(a, ts[j], bc, Var), m));
  }

  /** One turn of the equality loop. */
  lemma EqualityStep(ts: seq<Token>, j: nat, left: Expr, right: Expr, next: nat)
    requires Terminated(ts) && j < |ts| && Precedence(ts[j].kind) == 3
    requires ParseComparison(ts, j + 1) == Success(Parsed(right, next))
    ensures next < |ts| && ParseEqualityRest(ts, j, left) == ParseEqualityRest(ts, next, Binary(left, ts[j], right, Var))
  {
  }

  /** Left associativity of comparison: `a < b < c` is `(a < b) < c`. */
  lemma ComparisonLeftAssociative(ts: seq<Token>, i: nat, a: Expr, j: nat, b: Expr, k: nat, c: Expr, m: nat)
    requires Terminated(ts) && i < |ts|
    requires ParseAdditive(ts, i) == Success(Parsed(a, j)) && Precedence(ts[j].kind) == 4
    requires ParseAdditive(ts, j + 1) == Success(Parsed(b, k)) && Precedence(ts[k].kind) == 4
    requires ParseAdditive(ts, k + 1) == Success(Parsed(c, m)) && Precedence(ts[m].kind) != 4
    ensures ParseComparison(ts, i) == Success(Parsed(Binary(Binary(a, ts[j], b, Var), ts[k], c, Var), m))
  {
    var ab := Binary(a, ts[j], b, Var);
    var abc := Binary(ab, ts[k], c, Var);
    ComparisonStep(ts, j, a, b, k);
    ComparisonStep(ts, k, ab, c, m);
    assert ParseComparisonRest(ts, m, abc) == Success(Parsed(abc, m));
  }

  /** Two additive operands joined by a comparison operator form one comparison. */
  lemma Comparison(ts: seq<Token>, i: nat, b: Expr, k: nat, c: Expr, m: nat)
    requires Terminated(ts) && i < |ts|
    requires ParseAdditive(ts, i) == Success(Parsed(b, k)) && Precedence(ts[k].kind) == 4
    requires ParseAdditive(ts, k + 1) == Success(Parsed(c, m)) && Precedence(ts[m].kind) != 4
    ensures ParseComparison(ts, i) == Success(Parsed(Binary(b, ts[k], c, Var), m))
  {
    var bc := Binary(b, ts[k], c, Var);
    ComparisonStep(ts, k, b, c, m);
    assert ParseComparisonRest(ts, m, bc) == Success(Parsed(bc, m));
  }

  /** Precedence: in `a < b + c` the whole sum `b + c` is the right operand of the
      comparison. */
  lemma AdditiveBindsTighterThanComparison(ts: seq<Token>, i: nat, a: Expr, j: nat, b: Expr, k: nat, c: Expr, m: nat)
    requires Terminated(ts) && i < |ts|
    requires ParseAdditive(ts, i) == Success(Parsed(a, j)) && Precedence(ts[j].kind) == 4
    requires ParseMultiplicative(ts, j + 1) == Success(Parsed(b, k)) && Precedence(ts[k].kind) == 5
    requires ParseMultiplicative(ts, k + 1) == Success(Parsed(c, m)) && Precedence(ts[m].kind) < 4
    ensures ParseComparison(ts, i) == Success(Parsed(Binary(a, ts[j], Binary(b, ts[k], c, Var), Var), m))
  {
    var bc := Binary(b, ts[k], c, Var);
    Sum(ts, j + 1, b, k, c, m);
    ComparisonStep(ts, j, a, bc, m);
    assert ParseComparisonRest(ts, m, Binary(a, ts[j], bc, Var)) == Success(Parsed(Binary(a, ts[j], bc, Var), m));
  }

  /** Two multiplicative operands joined by an additive operator form one sum. */
  lemma Sum(ts: seq<Token>, i: nat, b: Expr, k: nat, c: Expr, m: nat)
    requires Terminated(ts) && i < |ts|
    requires ParseMultiplicative(ts, i) == Success(Parsed(b, k)) && Precedence(ts[k].kind) == 5
    requires ParseMultiplicative(ts, k + 1) == Success(Parsed(c, m)) && Precedence(ts[m].kind) != 5
    ensures ParseAdditive(ts, i) == Success(Parsed(Binary(b, ts[k], c, Var), m))
  {
    var bc := Binary(b, ts[k], c, Var);
    AdditiveStep(ts, k, b, c, m);
    assert ParseAdditiveRest(ts, m, bc) == Success(Parsed(bc, m));
  }

  /** One turn of the comparison loop. */
  lemma ComparisonStep(ts: seq<Token>, j: nat, left: Expr, right: Expr, next: nat)
    requires Terminated(ts) && j < |ts| && Precedence(ts[j].kind) == 4
    requires ParseAdditive(ts, j + 1) == Success(Parsed(right, next))
    ensures next < |ts| && ParseComparisonRest(ts, j, left) == ParseComparisonRest(ts, next, Binary(left, ts[j], right, Var))
  {
  }

  /** Unary operators are right-recursive: `!` or `-` applies to the whole unary expression
      after it. */
  lemma UnaryIsPrefix(ts: seq<Token>, i: nat, x: Expr, j: nat)
    requires Terminated(ts) && i + 1 < |ts| && IsUnaryOp(ts[i].kind)
    requires ParseUnary(ts, i + 1) == Success(Parsed(x, j))
    ensures ParseUnary(ts, i) == Success(Parsed(Unary(ts[i], x, Var), j))
  {
  }

  /** A unary operator binds tighter than every binary one: in `-a * b` the operand of `-`
      is `a` alone. */
  lemma UnaryBindsTighter(ts: seq<Token>, i: nat, a: Expr, j: nat, b: Expr, k: nat)
    requires Terminated(ts) && i + 1 < |ts| && IsUnaryOp(ts[i].kind) && !IsUnaryOp(ts[i + 1].kind)
    requires ParsePrimary(ts, i + 1) == Success(Parsed(a, j)) && Precedence(ts[j].kind) == 6
    requires ParseUnary(ts, j + 1) == Success(Parsed(b, k)) && Precedence(ts[k].kind) != 6
    ensures ParseMultiplicative(ts, i) == Success(Parsed(Binary(Unary(ts[i], a, Var), ts[j], b, Var), k))
  {
    var u := Unary(ts[i], a, Var);
    assert ParseUnary(ts, i + 1) == Success(Parsed(a, j));
    UnaryIsPrefix(ts, i, a, j);
    Product(ts, i, u, j, b, k);
  }

  /** A parenthesised expression is its inner node itself, with no wrapper; a missing ')'
      is reported at the token found instead. */
  lemma ParenthesizedIsInner(ts: seq<Token>, i: nat, e: Expr, j: nat)
    requires Terminated(ts) && i + 1 < |ts| && ts[i].kind == OpenParen
    requires ParseExpression(ts, i + 1) == Success(Parsed(e, j))
    ensures ts[j].kind == CloseParen ==> ParsePrimary(ts, i) == Success(Parsed(e, j + 1))
    ensures ts[j].kind != CloseParen ==> ParsePrimary(ts, i) == Failure(ParseException(ExpectedGroupClose, ts[j]))
  {
    assert ParsePrimary(ts, i) == ParseParenthesized(ts, i);
  }

  /** A token that cannot start an expression is reported as such. */
  lemma BadExpressionStart(ts: seq<Token>, i: nat)
    requires Terminated(ts) && i < |ts|
    requires !IsUnaryOp(ts[i].kind) && !IsLiteralKind(ts[i].kind)
    requires ts[i].kind != Identifier && ts[i].kind != OpenParen
    ensures ParseExpression(ts, i) == Failure(ParseException(UnexpectedExpressionStart, ts[i]))
  {
    var err := Failure(ParseException(UnexpectedExpressionStart, ts[i]));
    assert ParseUnary(ts, i) == err;
    assert ParseMultiplicative(ts, i) == err;
    assert ParseAdditive(ts, i) == err;
    assert ParseComparison(ts, i) == err;
    assert ParseEquality(ts, i) == err;
    assert ParseLogicalAnd(ts, i) == err;
    assert ParseLogicalOr(ts, i) == err;
  }

  // ---------------------------------------------------------------------------------------
  // Statements

  /** A statement that starts with a name: an assignment before '=', a call statement before
      '(', and otherwise the error for an unexpected start of statement. */
  lemma NameStatementDispatch(ts: seq<Token>, i: nat)
    requires Terminated(ts) && i < |ts| && ts[i].kind == Identifier
    ensures Tok(ts, i + 1).kind == TokenType.Assign ==> ParseStatement(ts, i) == ParseAssignment(ts, i)
    ensures Tok(ts, i + 1).kind == OpenParen ==> ParseStatement(ts, i) == ParseCallStatement(ts, i)
    ensures Tok(ts, i + 1).kind != TokenType.Assign && Tok(ts, i + 1).kind != OpenParen ==>
      ParseStatement(ts, i) == Failure(ParseException(UnexpectedStatementStart, ts[i]))
  {
    assert ParseStatement(ts, i) == ParseNameStatement(ts, i);
  }

  /** A call statement needs its ';'. */
  lemma CallStatementSemicolon(ts: seq<Token>, i: nat, call: Expr, j: nat)
    requires Terminated(ts) && i < |ts|
    requires ParseCall(ts, i) == Success(Parsed(call, j))
    ensures ts[j].kind == Semicolon ==> ParseCallStatement(ts, i) == Success(Parsed(ExprStmt(call, call.identifier), j + 1))
    ensures ts[j].kind != Semicolon ==> ParseCallStatement(ts, i) == Failure(ParseException(ExpectedCallSemicolon, ts[j]))
  {
  }

  /** The two assignment forms parse the same prefix; the statement form then requires ';'
      — apart from the messages for a missing name or '='. */
  lemma AssignmentForms(ts: seq<Token>, i: nat, a: Stmt, j: nat)
    requires Terminated(ts) && i < |ts|
    requires ParseAssignmentNoSemicolon(ts, i) == Success(Parsed(a, j))
    ensures ts[j].kind == Semicolon ==> ParseAssignment(ts, i) == Success(Parsed(a, j + 1))
    ensures ts[j].kind != Semicolon ==> ParseAssignment(ts, i) == Failure(ParseException(ExpectedAssignSemicolon, ts[j]))
  {
  }

  // ---------------------------------------------------------------------------------------
  // The `for` header

  /** All three slots may be empty: `for ( ; ; )` followed by a block. */
  lemma ForEmptySlots(ts: seq<Token>, i: nat, body: Block, j: nat)
    requires Terminated(ts) && i + 5 < |ts|
    requires ts[i].kind == For && ts[i + 1].kind == OpenParen && ts[i + 2].kind == Semicolon
    requires ts[i + 3].kind == Semicolon && ts[i + 4].kind == CloseParen
    requires ParseBlock(ts, i + 5) == Success(Parsed(body, j))
    ensures ParseFor(ts, i) == Success(Parsed(ForStmt(None, None, None, body, ts[i]), j))
  {
    assert ParseForInit(ts, i + 2) == Success(Parsed(None, i + 3));
    assert ParseForCondition(ts, i + 3) == Success(Parsed(None, i + 3));
    assert ParseForIncrement(ts, i + 4) == Success(Parsed(None, i + 4));
  }

  /** `var name: type;` parses as a declaration with no initializer, whose node token is the
      `var` keyword. */
  lemma DeclarationWithoutInitializer(ts: seq<Token>, p: nat)
    requires Terminated(ts) && p + 4 < |ts|
    requires ts[p].kind == Var && ts[p + 1].kind == Identifier && ts[p + 2].kind == Colon
    requires IsTypeKeyword(ts[p + 3].kind) && ts[p + 4].kind == Semicolon
    ensures ParseVarDecl(ts, p) == Success(Parsed(VarDecl(ts[p + 1], TypeNodeData(ts[p + 3], ts[p + 3].kind), None, ts[p]), p + 5))
  {
    assert ParseType(ts, p + 3) == Success(Parsed(TypeNodeData(ts[p + 3], ts[p + 3].kind), p + 4));
    assert ParseInitializer(ts, p + 4) == Success(Parsed(None, p + 4));
  }

  /** `{ }` is the empty block, its node token the '{'. */
  lemma EmptyBlock(ts: seq<Token>, i: nat)
    requires Terminated(ts) && i + 1 < |ts| && ts[i].kind == OpenBrace && ts[i + 1].kind == CloseBrace
    ensures ParseBlock(ts, i) == Success(Parsed(Block([], ts[i]), i + 2))
  {
    assert ParseStatements(ts, i + 1, []) == Success(Parsed([], i + 1));
  }

  /** A declaration in the init slot consumes its own ';' and no other follows it. */
  lemma ForInitDeclaration(ts: seq<Token>, p: nat, d: Stmt, q: nat)
    requires Terminated(ts) && p < |ts| && ts[p].kind == Var
    requires ParseVarDecl(ts, p) == Success(Parsed(d, q))
    ensures ParseForInit(ts, p) == Success(Parsed(Some(d), q)) && ts[q - 1].kind == Semicolon
  {
    assert ParseForInit(ts, p) == ParseInitDeclaration(ts, p);
    DeclarationEndsWithSemicolon(ts, p, d, q);
  }

  /** A declaration that parses ends with its ';'. */
  lemma DeclarationEndsWithSemicolon(ts: seq<Token>, p: nat, d: Stmt, q: nat)
    requires Terminated(ts) && p < |ts|
    requires ParseVarDecl(ts, p) == Success(Parsed(d, q))
    ensures ts[q - 1].kind == Semicolon
  {
    assert ts[p].kind == Var && ts[p + 1].kind == Identifier && ts[p + 2].kind == Colon;
    var ty := ParseType(ts, p + 3);
    assert ty.Success?;
    var init := ParseInitializer(ts, ty.value.next);
    assert init.Success?;
    assert ts[init.value.next].kind == Semicolon && q == init.value.next + 1;
  }

  /** So does an assignment in the init slot. */
  lemma ForInitAssignment(ts: seq<Token>, p: nat, a: Stmt, q: nat)
    requires Terminated(ts) && p + 1 < |ts| && ts[p].kind == Identifier && ts[p + 1].kind == TokenType.Assign
    requires ParseAssignment(ts, p) == Success(Parsed(a, q))
    ensures ParseForInit(ts, p) == Success(Parsed(Some(a), q)) && ts[q - 1].kind == Semicolon
  {
    assert ParseForInit(ts, p) == ParseNameInit(ts, p);
  }

  /** Any other init is an expression statement followed by a separately consumed ';'. */
  lemma ForInitExpression(ts: seq<Token>, p: nat, e: Expr, q: nat)
    requires Terminated(ts) && p < |ts|
    requires ts[p].kind != Semicolon && ts[p].kind != Var
    requires ts[p].kind == Identifier ==> Tok(ts, p + 1).kind != TokenType.Assign
    requires ParseExpression(ts, p) == Success(Parsed(e, q))
    ensures ts[q].kind == Semicolon ==> ParseForInit(ts, p) == Success(Parsed(Some(ExprStmt(e, e.Tok())), q + 1))
    ensures ts[q].kind != Semicolon ==> ParseForInit(ts, p) == Failure(ParseException(ExpectedForInitSemicolon, ts[q]))
  {
    assert ParseInitExpression(ts, p) == ParseForInit(ts, p);
  }

  /** The increment assignment takes no ';': the header closes right after its value. */
  lemma ForIncrementAssignment(ts: seq<Token>, p: nat, a: Stmt, q: nat)
    requires Terminated(ts) && p + 1 < |ts| && ts[p].kind == Identifier && ts[p + 1].kind == TokenType.Assign
    requires ParseAssignmentNoSemicolon(ts, p) == Success(Parsed(a, q))
    ensures ParseForIncrement(ts, p) == Success(Parsed(Some(a), q))
  {
    assert ParseForIncrement(ts, p) == ParseNameIncrement(ts, p);
  }
}
