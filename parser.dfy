/** The parser as the source writes it (MACSLang.Parser/Parser.cs): a recursive-descent
    parser that reads tokens from the lexer into a lookahead queue. Each `Parse` method is
    proved to return what the matching `ParserSpec` function describes, and to stop at the
    index that function gives.

    The lexer is represented by the token stream it produces (`tokens`, ending in EOF): the
    parser has drawn `pos + |buffer|` tokens from it, and drawing past the end yields EOF
    again. */
module Parser {
  import opened Wrappers
  import opened Tokens
  import opened Ast
  import S = ParserSpec

  /** A method's result agrees with the grammar function: the same node and the same stop
      index on success, the same exception on failure. */
  predicate Agrees<T(==)>(r: Result<T, S.ParseError>, spec: S.PResult<T>, pos: nat) {
    match spec
    case Success(p) => r == Success(p.node) && pos == p.next
    case Failure(e) => r == Failure(e)
  }

  /** The tokens the lexer returns from its call number `first` up to, not including, call
      number `limit` (counting from 0). */
  function Window(ts: seq<Token>, first: nat, limit: nat): (w: seq<Token>)
    requires |ts| > 0 && first <= limit
    ensures |w| == limit - first
  {
    seq(limit - first, k requires 0 <= k < limit - first => S.Tok(ts, first + k))
  }

  lemma WindowIndex(ts: seq<Token>, first: nat, limit: nat, k: nat)
    requires |ts| > 0 && first + k < limit
    ensures Window(ts, first, limit)[k] == S.Tok(ts, first + k)
  {
  }

  lemma WindowExtend(ts: seq<Token>, first: nat, limit: nat)
    requires |ts| > 0 && first <= limit
    ensures Window(ts, first, limit + 1) == Window(ts, first, limit) + [S.Tok(ts, limit)]
  {
  }

  class Parser {
    const tokens: seq<Token>
    var pos: nat
    var buffer: seq<Token>

    /** The queue holds the tokens from the current one on, in order; the lexer has
        delivered `pos + |buffer|` tokens. */
    predicate Valid()
      reads this
    {
      S.Terminated(tokens) && buffer == Window(tokens, pos, pos + |buffer|)
    }

    /** Between calls the queue holds the current token, which lies in the stream. */
    predicate Ready()
      reads this
    {
      Valid() && |buffer| >= 1 && pos < |tokens|
    }

    /** The constructor draws the first token. */
    constructor(tokens: seq<Token>)
      requires S.Terminated(tokens)
      ensures this.tokens == tokens && Ready() && pos == 0
    {
      this.tokens := tokens;
      pos := 0;
      buffer := [];
      new;
      Advance();
    }

    /** `CurrentToken`: the head of the queue. */
    function CurrentToken(): (t: Token)
      reads this
      requires Ready()
      ensures t == tokens[pos]
    {
      WindowIndex(tokens, pos, pos + |buffer|, 0);
      buffer[0]
    }

    /** The lexer's `NextToken`: the next token of the stream, EOF once it is exhausted. */
    function LexerNextToken(): (t: Token)
      reads this
      requires Valid()
    {
      S.Tok(tokens, pos + |buffer|)
    }

    /** Drops the current token, if any, and refills the queue to one token. */
    method Advance()
      requires Valid()
      modifies this
      ensures Valid() && |buffer| >= 1
      ensures pos == old(pos) + (if old(|buffer|) > 0 then 1 else 0)
      ensures old(Ready()) && old(CurrentToken()).kind != EOF ==> Ready()
    {
      if |buffer| > 0 {
        buffer := buffer[1..];
        pos := pos + 1;
      }
      while |buffer| < 1
        invariant Valid() && pos == old(pos) + (if old(|buffer|) > 0 then 1 else 0)
        decreases 1 - |buffer|
      {
        WindowExtend(tokens, pos, pos + |buffer|);
        buffer := buffer + [LexerNextToken()];
      }
    }

    /** `Peek(k)`: the token `k` places after the current one. The current position and the
        tokens already queued are unchanged: the queue only grows at its end. */
    method Peek(k: nat) returns (t: Token)
      requires Ready()
      modifies this
      ensures Ready() && pos == old(pos)
      ensures |buffer| == if old(|buffer|) > k then old(|buffer|) else k + 1
      ensures t == S.Tok(tokens, pos + k)
    {
      while |buffer| <= k
        invariant Ready() && pos == old(pos)
        invariant old(|buffer|) <= |buffer| <= if old(|buffer|) > k then old(|buffer|) else k + 1
        decreases k + 1 - |buffer|
      {
        WindowExtend(tokens, pos, pos + |buffer|);
        buffer := buffer + [LexerNextToken()];
      }
      WindowIndex(tokens, pos, pos + |buffer|, k);
      t := buffer[k];
    }

    /** `Match(type)`: whether the current token has that kind. */
    predicate Match(kind: TokenType)
      reads this
      requires Ready()
    {
      CurrentToken().kind == kind
    }

    /** `Consume(type, message)`: on a match, the current token, one step further on;
        otherwise the exception, having consumed nothing. */
    method Consume(kind: TokenType, message: S.Msg) returns (r: Result<Token, S.ParseError>)
      requires Ready() && kind != EOF
      modifies this
      ensures Ready() && Agrees(r, S.Consume(tokens, old(pos), kind, message), pos)
      ensures r.Failure? ==> pos == old(pos)
    {
      if Match(kind) {
        var consumed := CurrentToken();
        Advance();
        return Success(consumed);
      }
      return Failure(S.ParseException(message, CurrentToken()));
    }

    // -------------------------------------------------------------------------------------
    // Programs and functions

    /** `ParseProgram`: function declarations until EOF. */
    method ParseProgram() returns (r: Result<Program, S.ParseError>)
      requires Ready()
      modifies this
      ensures Ready() && r == S.ParseProgramFrom(tokens, old(pos))
    {
      ghost var start := pos;
      var functions: seq<Function> := [];
      while !Match(EOF)
        invariant Ready()
        invariant S.ParseFunctions(tokens, pos, functions) == S.ParseFunctions(tokens, start, [])
        decreases |tokens| - pos
      {
        var f := ParseFunctionDeclaration();
        if f.Failure? {
          return Failure(f.error);
        }
        functions := functions + [f.value];
      }
      return Success(Program(functions));
    }

    /** `ParseFunctionDeclaration`: func name '(' parameters ')' ':' type block. */
    method ParseFunctionDeclaration() returns (r: Result<Function, S.ParseError>)
      requires Ready()
      modifies this
      ensures Ready() && Agrees(r, S.ParseFunction(tokens, old(pos)), pos)
    {
      var funcToken :- Consume(Func, S.ExpectedFunc);
      var identifier :- Consume(Identifier, S.ExpectedFuncName);
      var open :- Consume(OpenParen, S.ExpectedFuncOpen);
      var parameters :- ParseParameterList();
      var close :- Consume(CloseParen, S.ExpectedFuncClose);
      var colon :- Consume(Colon, S.ExpectedReturnTypeColon);
      var returnType :- ParseType();
      var body :- ParseBlock();
      return Success(NewFunctionDeclaration(identifier, Some(parameters), returnType, body, Some(funcToken)));
    }

    /** The parameter list of `ParseFunctionDeclaration`: empty before ')', otherwise
        parameters separated by ','. */
    method ParseParameterList() returns (r: Result<seq<Param>, S.ParseError>)
      requires Ready()
      modifies this
      ensures Ready() && Agrees(r, S.ParseParameterList(tokens, old(pos)), pos)
    {
      if !Match(CloseParen) {
        var first :- ParseParameter();
        r := ParseMoreParameters([first]);
      } else {
        r := Success([]);
      }
    }

    /** The loop of the parameter list: while a ',' follows, one more parameter. */
    method ParseMoreParameters(firsts: seq<Param>) returns (r: Result<seq<Param>, S.ParseError>)
      requires Ready()
      modifies this
      ensures Ready() && Agrees(r, S.ParseParameters(tokens, old(pos), firsts), pos)
    {
      var parameters := firsts;
      while Match(Comma)
        invariant Ready()
        invariant S.ParseParameters(tokens, pos, parameters) == S.ParseParameters(tokens, old(pos), firsts)
        decreases |tokens| - pos
      {
        ghost var here := pos;
        Advance();
        var p :- ParseParameter();
        assert S.ParseParameters(tokens, here, parameters) == S.ParseParameters(tokens, pos, parameters + [p]);
        parameters := parameters + [p];
      }
      return Success(parameters);
    }

    /** `ParseParameter`: name ':' type. */
    method ParseParameter() returns (r: Result<Param, S.ParseError>)
      requires Ready()
      modifies this
      ensures Ready() && Agrees(r, S.ParseParameter(tokens, old(pos)), pos)
    {
      var identifier :- Consume(Identifier, S.ExpectedParamName);
      var colon :- Consume(Colon, S.ExpectedParamColon);
      var ty :- ParseType();
      return Success(NewParameter(identifier, ty, None));
    }

    /** `ParseType`: one of the five type keywords. */
    method ParseType() returns (r: Result<TypeNode, S.ParseError>)
      requires Ready()
      modifies this
      ensures Ready() && Agrees(r, S.ParseType(tokens, old(pos)), pos)
    {
      var typeToken := CurrentToken();
      if Match(IntKeyword) || Match(FloatKeyword) || Match(CharKeyword) || Match(BoolKeyword) || Match(StringKeyword) {
        Advance();
        var node := NewTypeNode(typeToken);
        return Success(node.value);
      }
      return Failure(S.ParseException(S.ExpectedType, CurrentToken()));
    }

    // -------------------------------------------------------------------------------------
    // Statements

    /** `ParseBlock`: '{', statements up to '}' or EOF, '}'. */
    method ParseBlock() returns (r: Result<Block, S.ParseError>)
      requires Ready()
      modifies this
      ensures Ready() && Agrees(r, S.ParseBlock(tokens, old(pos)), pos)
      decreases |tokens| - pos, 25
    {
      var openBrace :- Consume(OpenBrace, S.ExpectedBlockOpen);
      ghost var p0 := pos;
      var statements: seq<Stmt> := [];
      while !Match(CloseBrace) && !Match(EOF)
        invariant Ready() && p0 <= pos
        invariant S.ParseStatements(tokens, pos, statements) == S.ParseStatements(tokens, p0, [])
        decreases |tokens| - pos
      {
        var s :- ParseStatement();
        statements := statements + [s];
      }
      var close :- Consume(CloseBrace, S.ExpectedBlockClose);
      return Success(Block(statements, openBrace));
    }

    /** `ParseStatement`: dispatch on the current token and, after a name, the next one. */
    method ParseStatement() returns (r: Result<Stmt, S.ParseError>)
      requires Ready()
      modifies this
      ensures Ready() && Agrees(r, S.ParseStatement(tokens, old(pos)), pos)
      decreases |tokens| - pos, 23
    {
      if Match(Var) {
        r := ParseVariableDeclaration();
      } else if Match(Return) {
        r := ParseReturnStatement();
      } else if Match(Print) {
        r := ParsePrintStatement();
      } else if Match(Input) {
        r := ParseInputStatement();
      } else if Match(If) {
        r := ParseIfStatement();
      } else if Match(While) {
        r := ParseWhileStatement();
      } else if Match(For) {
        r := ParseForStatement();
      } else if Match(Identifier) {
        r := ParseNameStatement();
      } else {
        r := Failure(S.ParseException(S.UnexpectedStatementStart, CurrentToken()));
      }
    }

    /** The statements that start with a name: an assignment before '=', a call statement
        before '(', and otherwise the error for an unexpected token. */
    method ParseNameStatement() returns (r: Result<Stmt, S.ParseError>)
      requires Ready() && CurrentToken().kind == Identifier
      modifies this
      ensures Ready() && Agrees(r, S.ParseNameStatement(tokens, old(pos)), pos)
      decreases |tokens| - pos, 22
    {
      var name := CurrentToken();
      var next := Peek(1);
      if next.kind == TokenType.Assign {
        r := ParseAssignmentStatement();
      } else if next.kind == OpenParen {
        r := ParseCallStatement();
      } else {
        r := Failure(S.ParseException(S.UnexpectedStatementStart, name));
      }
    }

    /** A call used as a statement, and its ';'. */
    method ParseCallStatement() returns (r: Result<Stmt, S.ParseError>)
      requires Ready()
      modifies this
      ensures Ready() && Agrees(r, S.ParseCallStatement(tokens, old(pos)), pos)
      decreases |tokens| - pos, 21
    {
      var expr :- ParseFunctionCallExpression();
      var semi :- Consume(Semicolon, S.ExpectedCallSemicolon);
      return Success(ExprStmt(expr, expr.Tok()));
    }

    /** `ParseVariableDeclaration`: var name ':' type ['=' expression] ';'. */
    method ParseVariableDeclaration() returns (r: Result<Stmt, S.ParseError>)
      requires Ready()
      modifies this
      ensures Ready() && Agrees(r, S.ParseVarDecl(tokens, old(pos)), pos)
      decreases |tokens| - pos, 21
    {
      var varToken :- Consume(Var, S.ExpectedVar);
      var identifier :- Consume(Identifier, S.ExpectedVarName);
      var colon :- Consume(Colon, S.ExpectedVarColon);
      var ty :- ParseType();
      var initialValue :- ParseInitializer();
      var semi :- Consume(Semicolon, S.ExpectedVarSemicolon);
      return Success(VarDecl(identifier, ty, initialValue, varToken));
    }

    /** The optional initializer of `ParseVariableDeclaration`. */
    method ParseInitializer() returns (r: Result<Option<Expr>, S.ParseError>)
      requires Ready()
      modifies this
      ensures Ready() && Agrees(r, S.ParseInitializer(tokens, old(pos)), pos)
      decreases |tokens| - pos, 20
    {
      if Match(TokenType.Assign) {
        Advance();
        var e :- ParseExpression();
        return Success(Some(e));
      }
      return Success(None);
    }

    /** `ParseAssignmentStatement`: name '=' expression ';'. */
    method ParseAssignmentStatement() returns (r: Result<Stmt, S.ParseError>)
      requires Ready()
      modifies this
      ensures Ready() && Agrees(r, S.ParseAssignment(tokens, old(pos)), pos)
      decreases |tokens| - pos, 21
    {
      var identifier :- Consume(Identifier, S.ExpectedAssignName);
      var assignToken :- Consume(TokenType.Assign, S.ExpectedAssignOp);
      var value :- ParseExpression();
      var semi :- Consume(Semicolon, S.ExpectedAssignSemicolon);
      return Success(AssignStmt(identifier, value, assignToken));
    }

    /** `ParseReturnStatement`: return expression ';'. */
    method ParseReturnStatement() returns (r: Result<Stmt, S.ParseError>)
      requires Ready()
      modifies this
      ensures Ready() && Agrees(r, S.ParseReturn(tokens, old(pos)), pos)
      decreases |tokens| - pos, 21
    {
      var returnToken :- Consume(Return, S.ExpectedReturn);
      var value :- ParseExpression();
      var semi :- Consume(Semicolon, S.ExpectedReturnSemicolon);
      return Success(ReturnStmt(value, returnToken));
    }

    /** `ParsePrintStatement`: print '(' expression ')' ';'. */
    method ParsePrintStatement() returns (r: Result<Stmt, S.ParseError>)
      requires Ready()
      modifies this
      ensures Ready() && Agrees(r, S.ParsePrint(tokens, old(pos)), pos)
      decreases |tokens| - pos, 21
    {
      var printToken :- Consume(Print, S.ExpectedPrint);
      var open :- Consume(OpenParen, S.ExpectedPrintOpen);
      var expr :- ParseExpression();
      var close :- Consume(CloseParen, S.ExpectedPrintClose);
      var semi :- Consume(Semicolon, S.ExpectedPrintSemicolon);
      return Success(PrintStmt(expr, printToken));
    }

    /** `ParseInputStatement`: input '(' name ')' ';'. */
    method ParseInputStatement() returns (r: Result<Stmt, S.ParseError>)
      requires Ready()
      modifies this
      ensures Ready() && Agrees(r, S.ParseInput(tokens, old(pos)), pos)
      decreases |tokens| - pos, 21
    {
      var inputToken :- Consume(Input, S.ExpectedInput);
      var open :- Consume(OpenParen, S.ExpectedInputOpen);
      var target :- Consume(Identifier, S.ExpectedInputName);
      var close :- Consume(CloseParen, S.ExpectedInputClose);
      var semi :- Consume(Semicolon, S.ExpectedInputSemicolon);
      return Success(InputStmt(target, Var, inputToken));
    }

    /** `ParseIfStatement`: if '(' condition ')' block [else block]. */
    method ParseIfStatement() returns (r: Result<Stmt, S.ParseError>)
      requires Ready()
      modifies this
      ensures Ready() && Agrees(r, S.ParseIf(tokens, old(pos)), pos)
      decreases |tokens| - pos, 21
    {
      var ifToken :- Consume(If, S.ExpectedIf);
      var open :- Consume(OpenParen, S.ExpectedIfOpen);
      var condition :- ParseExpression();
      var close :- Consume(CloseParen, S.ExpectedIfClose);
      var trueBlock :- ParseBlock();
      var elseBlock :- ParseElse();
      return Success(IfStmt(condition, trueBlock, elseBlock, ifToken));
    }

    /** The optional else branch of `ParseIfStatement`. */
    method ParseElse() returns (r: Result<Option<Block>, S.ParseError>)
      requires Ready()
      modifies this
      ensures Ready() && Agrees(r, S.ParseElse(tokens, old(pos)), pos)
      decreases |tokens| - pos, 20
    {
      if Match(Else) {
        Advance();
        var b :- ParseBlock();
        return Success(Some(b));
      }
      return Success(None);
    }

    /** `ParseWhileStatement`: while '(' condition ')' block. */
    method ParseWhileStatement() returns (r: Result<Stmt, S.ParseError>)
      requires Ready()
      modifies this
      ensures Ready() && Agrees(r, S.ParseWhile(tokens, old(pos)), pos)
      decreases |tokens| - pos, 21
    {
      var whileToken :- Consume(While, S.ExpectedWhile);
      var open :- Consume(OpenParen, S.ExpectedWhileOpen);
      var condition :- ParseExpression();
      var close :- Consume(CloseParen, S.ExpectedWhileClose);
      var body :- ParseBlock();
      return Success(WhileStmt(condition, body, whileToken));
    }

    /** `ParseForStatement`: for '(' init ';' condition ';' increment ')' block. */
    method ParseForStatement() returns (r: Result<Stmt, S.ParseError>)
      requires Ready()
      modifies this
      ensures Ready() && Agrees(r, S.ParseFor(tokens, old(pos)), pos)
      decreases |tokens| - pos, 21
    {
      var forToken :- Consume(For, S.ExpectedFor);
      var open :- Consume(OpenParen, S.ExpectedForOpen);
      var initialization :- ParseForInit();
      var condition :- ParseForCondition();
      var semi :- Consume(Semicolon, S.ExpectedForConditionSemicolon);
      var increment :- ParseForIncrement();
      var close :- Consume(CloseParen, S.ExpectedForClose);
      var body :- ParseBlock();
      return Success(ForStmt(initialization, condition, increment, body, forToken));
    }

    /** The init slot of `ParseForStatement`, with the ';' after it. */
    method ParseForInit() returns (r: Result<Option<Stmt>, S.ParseError>)
      requires Ready()
      modifies this
      ensures Ready() && Agrees(r, S.ParseForInit(tokens, old(pos)), pos)
      decreases |tokens| - pos, 23
    {
      if !Match(Semicolon) {
        if Match(Var) {
          r := ParseInitDeclaration();
        } else if Match(Identifier) {
          r := ParseNameInit();
        } else {
          r := ParseInitExpression();
        }
        return;
      }
      Advance();
      return Success(None);
    }

    method ParseNameInit() returns (r: Result<Option<Stmt>, S.ParseError>)
      requires Ready() && CurrentToken().kind == Identifier
      modifies this
      ensures Ready() && Agrees(r, S.ParseNameInit(tokens, old(pos)), pos)
      decreases |tokens| - pos, 22
    {
      var next := Peek(1);
      if next.kind == TokenType.Assign {
        r := ParseInitAssignment();
      } else {
        r := ParseInitExpression();
      }
    }

    /** A declaration in the init slot; it consumes its own ';'. */
    method ParseInitDeclaration() returns (r: Result<Option<Stmt>, S.ParseError>)
      requires Ready()
      modifies this
      ensures Ready() && Agrees(r, S.ParseInitDeclaration(tokens, old(pos)), pos)
      decreases |tokens| - pos, 22
    {
      var d :- ParseVariableDeclaration();
      return Success(Some(d));
    }

    /** An assignment in the init slot; it consumes its own ';'. */
    method ParseInitAssignment() returns (r: Result<Option<Stmt>, S.ParseError>)
      requires Ready()
      modifies this
      ensures Ready() && Agrees(r, S.ParseInitAssignment(tokens, old(pos)), pos)
      decreases |tokens| - pos, 22
    {
      var a :- ParseAssignmentStatement();
      return Success(Some(a));
    }

    /** An expression in the init slot, then the slot's ';'. */
    method ParseInitExpression() returns (r: Result<Option<Stmt>, S.ParseError>)
      requires Ready()
      modifies this
      ensures Ready() && Agrees(r, S.ParseInitExpression(tokens, old(pos)), pos)
      decreases |tokens| - pos, 20
    {
      var initExpr :- ParseExpression();
      var semi :- Consume(Semicolon, S.ExpectedForInitSemicolon);
      return Success(Some(ExprStmt(initExpr, initExpr.Tok())));
    }


    /** The condition slot of `ParseForStatement`, up to its ';'. */
    method ParseForCondition() returns (r: Result<Option<Expr>, S.ParseError>)
      requires Ready()
      modifies this
      ensures Ready() && Agrees(r, S.ParseForCondition(tokens, old(pos)), pos)
      decreases |tokens| - pos, 20
    {
      if !Match(Semicolon) {
        var c :- ParseExpression();
        return Success(Some(c));
      }
      return Success(None);
    }

    /** The increment slot of `ParseForStatement`, up to its ')'. */
    method ParseForIncrement() returns (r: Result<Option<Stmt>, S.ParseError>)
      requires Ready()
      modifies this
      ensures Ready() && Agrees(r, S.ParseForIncrement(tokens, old(pos)), pos)
      decreases |tokens| - pos, 23
    {
      if !Match(CloseParen) {
        if Match(Identifier) {
          r := ParseNameIncrement();
        } else {
          r := ParseIncrementExpression();
        }
        return;
      }
      return Success(None);
    }

    /** An increment starting with a name: an assignment without ';' before '=', a call
        before '(', otherwise an expression. */
    method ParseNameIncrement() returns (r: Result<Option<Stmt>, S.ParseError>)
      requires Ready() && CurrentToken().kind == Identifier
      modifies this
      ensures Ready() && Agrees(r, S.ParseNameIncrement(tokens, old(pos)), pos)
      decreases |tokens| - pos, 22
    {
      var next := Peek(1);
      if next.kind == TokenType.Assign {
        var a :- ParseAssignmentStatementWithoutSemicolon();
        return Success(Some(a));
      } else if next.kind == OpenParen {
        var call :- ParseFunctionCallExpression();
        return Success(Some(ExprStmt(call, call.Tok())));
      }
      r := ParseIncrementExpression();
    }

    /** An expression as the increment. */
    method ParseIncrementExpression() returns (r: Result<Option<Stmt>, S.ParseError>)
      requires Ready()
      modifies this
      ensures Ready() && Agrees(r, S.ParseIncrementExpression(tokens, old(pos)), pos)
      decreases |tokens| - pos, 20
    {
      var incrementExpr :- ParseExpression();
      return Success(Some(ExprStmt(incrementExpr, incrementExpr.Tok())));
    }

    /** `ParseAssignmentStatementWithoutSemicolon`: name '=' expression. */
    method ParseAssignmentStatementWithoutSemicolon() returns (r: Result<Stmt, S.ParseError>)
      requires Ready()
      modifies this
      ensures Ready() && Agrees(r, S.ParseAssignmentNoSemicolon(tokens, old(pos)), pos)
      decreases |tokens| - pos, 21
    {
      var identifier :- Consume(Identifier, S.ExpectedForAssignName);
      var assignToken :- Consume(TokenType.Assign, S.ExpectedForAssignOp);
      var value :- ParseExpression();
      return Success(AssignStmt(identifier, value, assignToken));
    }

    // -------------------------------------------------------------------------------------
    // Expressions

    /** `ParseExpression`: the loosest level, `||`. */
    method ParseExpression() returns (r: Result<Expr, S.ParseError>)
      requires Ready()
      modifies this
      ensures Ready() && Agrees(r, S.ParseExpression(tokens, old(pos)), pos)
      decreases |tokens| - pos, 19
    {
      r := ParseLogicalOrExpression();
    }

    /** Binary level 1, `||`: an operand, then a loop that folds each operator and
        the operand after it into the expression so far. */
    method ParseLogicalOrExpression() returns (r: Result<Expr, S.ParseError>)
      requires Ready()
      modifies this
      ensures Ready() && Agrees(r, S.ParseLogicalOr(tokens, old(pos)), pos)
      decreases |tokens| - pos, 18
    {
      var expr :- ParseLogicalAndExpression();
      while Match(Or)
        invariant Ready()
        invariant S.ParseLogicalOrRest(tokens, pos, expr) == S.ParseLogicalOr(tokens, old(pos))
        decreases |tokens| - pos
      {
        var op := CurrentToken();
        ghost var here := pos;
        Advance();
        var right :- ParseLogicalAndExpression();
        expr := Binary(expr, op, right, Var);
      }
      return Success(expr);
    }

    /** Binary level 2, `&&`: an operand, then a loop that folds each operator and
        the operand after it into the expression so far. */
    method ParseLogicalAndExpression() returns (r: Result<Expr, S.ParseError>)
      requires Ready()
      modifies this
      ensures Ready() && Agrees(r, S.ParseLogicalAnd(tokens, old(pos)), pos)
      decreases |tokens| - pos, 16
    {
      var expr :- ParseEqualityExpression();
      while Match(And)
        invariant Ready()
        invariant S.ParseLogicalAndRest(tokens, pos, expr) == S.ParseLogicalAnd(tokens, old(pos))
        decreases |tokens| - pos
      {
        var op := CurrentToken();
        ghost var here := pos;
        Advance();
        var right :- ParseEqualityExpression();
        expr := Binary(expr, op, right, Var);
      }
      return Success(expr);
    }

    /** Binary level 3, `==` and `!=`: an operand, then a loop that folds each operator and
        the operand after it into the expression so far. */
    method ParseEqualityExpression() returns (r: Result<Expr, S.ParseError>)
      requires Ready()
      modifies this
      ensures Ready() && Agrees(r, S.ParseEquality(tokens, old(pos)), pos)
      decreases |tokens| - pos, 14
    {
      var expr :- ParseComparisonExpression();
      while S.Precedence(CurrentToken().kind) == 3
        invariant Ready()
        invariant S.ParseEqualityRest(tokens, pos, expr) == S.ParseEquality(tokens, old(pos))
        decreases |tokens| - pos
      {
        var op := CurrentToken();
        ghost var here := pos;
        Advance();
        var right :- ParseComparisonExpression();
        expr := Binary(expr, op, right, Var);
      }
      return Success(expr);
    }

    /** Binary level 4, `<`, `>`, `<=` and `>=`: an operand, then a loop that folds each operator and
        the operand after it into the expression so far. */
    method ParseComparisonExpression() returns (r: Result<Expr, S.ParseError>)
      requires Ready()
      modifies this
      ensures Ready() && Agrees(r, S.ParseComparison(tokens, old(pos)), pos)
      decreases |tokens| - pos, 12
    {
      var expr :- ParseAdditiveExpression();
      while S.Precedence(CurrentToken().kind) == 4
        invariant Ready()
        invariant S.ParseComparisonRest(tokens, pos, expr) == S.ParseComparison(tokens, old(pos))
        decreases |tokens| - pos
      {
        var op := CurrentToken();
        ghost var here := pos;
        Advance();
        var right :- ParseAdditiveExpression();
        expr := Binary(expr, op, right, Var);
      }
      return Success(expr);
    }

    /** Binary level 5, `+` and `-`: an operand, then a loop that folds each operator and
        the operand after it into the expression so far. */
    method ParseAdditiveExpression() returns (r: Result<Expr, S.ParseError>)
      requires Ready()
      modifies this
      ensures Ready() && Agrees(r, S.ParseAdditive(tokens, old(pos)), pos)
      decreases |tokens| - pos, 10
    {
      var expr :- ParseMultiplicativeExpression();
      while S.Precedence(CurrentToken().kind) == 5
        invariant Ready()
        invariant S.ParseAdditiveRest(tokens, pos, expr) == S.ParseAdditive(tokens, old(pos))
        decreases |tokens| - pos
      {
        var op := CurrentToken();
        ghost var here := pos;
        Advance();
        var right :- ParseMultiplicativeExpression();
        expr := Binary(expr, op, right, Var);
      }
      return Success(expr);
    }

    /** Binary level 6, `*`, `/` and `%`: an operand, then a loop that folds each operator and
        the operand after it into the expression so far. */
    method ParseMultiplicativeExpression() returns (r: Result<Expr, S.ParseError>)
      requires Ready()
      modifies this
      ensures Ready() && Agrees(r, S.ParseMultiplicative(tokens, old(pos)), pos)
      decreases |tokens| - pos, 8
    {
      var expr :- ParseUnaryExpression();
      while S.Precedence(CurrentToken().kind) == 6
        invariant Ready()
        invariant S.ParseMultiplicativeRest(tokens, pos, expr) == S.ParseMultiplicative(tokens, old(pos))
        decreases |tokens| - pos
      {
        var op := CurrentToken();
        ghost var here := pos;
        Advance();
        var right :- ParseUnaryExpression();
        expr := Binary(expr, op, right, Var);
      }
      return Success(expr);
    }

    /** `ParseUnaryExpression`: `!` or `-` before a unary expression, else a primary one. */
    method ParseUnaryExpression() returns (r: Result<Expr, S.ParseError>)
      requires Ready()
      modifies this
      ensures Ready() && Agrees(r, S.ParseUnary(tokens, old(pos)), pos)
      decreases |tokens| - pos, 3
    {
      if S.IsUnaryOp(CurrentToken().kind) {
        var op := CurrentToken();
        Advance();
        var operand :- ParseUnaryExpression();
        return Success(Unary(op, operand, Var));
      }
      r := ParsePrimaryExpression();
    }

    /** `ParsePrimaryExpression`: literal, name, call, or parenthesised expression. */
    method ParsePrimaryExpression() returns (r: Result<Expr, S.ParseError>)
      requires Ready()
      modifies this
      ensures Ready() && Agrees(r, S.ParsePrimary(tokens, old(pos)), pos)
      decreases |tokens| - pos, 2
    {
      if Match(IntLiteral) || Match(FloatLiteral) || Match(StringLiteral) || Match(CharLiteral) || Match(True) || Match(False) {
        r := ParseLiteral();
      } else if Match(Identifier) {
        r := ParseNameExpression();
      } else if Match(OpenParen) {
        r := ParseParenthesized();
      } else {
        r := Failure(S.ParseException(S.UnexpectedExpressionStart, CurrentToken()));
      }
    }

    /** The literal case of `ParsePrimaryExpression`: the token is converted by the
        literal node's constructor. */
    method ParseLiteral() returns (r: Result<Expr, S.ParseError>)
      requires Ready() && S.IsLiteralKind(CurrentToken().kind)
      modifies this
      ensures Ready() && Agrees(r, S.ParseLiteral(tokens, old(pos)), pos)
    {
      var literalToken := CurrentToken();
      Advance();
      var node := NewLiteral(literalToken);
      if node.Failure? {
        return Failure(S.ArgumentException(node.error));
      }
      return Success(node.value);
    }

    /** The name case of `ParsePrimaryExpression`: a call before '(', else a variable. */
    method ParseNameExpression() returns (r: Result<Expr, S.ParseError>)
      requires Ready() && CurrentToken().kind == Identifier
      modifies this
      ensures Ready() && Agrees(r, S.ParseNameExpression(tokens, old(pos)), pos)
      decreases |tokens| - pos, 1
    {
      var identifierToken := CurrentToken();
      var next := Peek(1);
      if next.kind == OpenParen {
        r := ParseFunctionCallExpression();
        return;
      }
      Advance();
      var node := NewIdentifier(identifierToken);
      return Success(node.value);
    }

    /** The parenthesised case of `ParsePrimaryExpression`: the inner expression itself. */
    method ParseParenthesized() returns (r: Result<Expr, S.ParseError>)
      requires Ready() && CurrentToken().kind == OpenParen
      modifies this
      ensures Ready() && Agrees(r, S.ParseParenthesized(tokens, old(pos)), pos)
      decreases |tokens| - pos, 1
    {
      Advance();
      var expr :- ParseExpression();
      var close :- Consume(CloseParen, S.ExpectedGroupClose);
      return Success(expr);
    }

    /** `ParseFunctionCallExpression`: name '(' arguments ')'. */
    method ParseFunctionCallExpression() returns (r: Result<Expr, S.ParseError>)
      requires Ready()
      modifies this
      ensures Ready() && Agrees(r, S.ParseCall(tokens, old(pos)), pos)
      decreases |tokens| - pos, 0
    {
      var identifierToken :- Consume(Identifier, S.ExpectedCallName);
      var open :- Consume(OpenParen, S.ExpectedCallOpen);
      var arguments :- ParseArgumentList();
      var close :- Consume(CloseParen, S.ExpectedCallClose);
      return Success(Call(identifierToken, arguments, Var));
    }

    /** The argument list of `ParseFunctionCallExpression`: empty before ')', otherwise
        expressions separated by ','. */
    method ParseArgumentList() returns (r: Result<seq<Expr>, S.ParseError>)
      requires Ready()
      modifies this
      ensures Ready() && Agrees(r, S.ParseArgumentList(tokens, old(pos)), pos)
      decreases |tokens| - pos, 21
    {
      if !Match(CloseParen) {
        r := ParseNonEmptyArguments();
      } else {
        r := Success([]);
      }
    }

    /** A first argument, then the loop over the others. */
    method ParseNonEmptyArguments() returns (r: Result<seq<Expr>, S.ParseError>)
      requires Ready()
      modifies this
      ensures Ready() && Agrees(r, S.ParseNonEmptyArguments(tokens, old(pos)), pos)
      decreases |tokens| - pos, 20
    {
      var first :- ParseExpression();
      r := ParseMoreArguments([first]);
    }

    /** The loop of the argument list: while a ',' follows, one more argument. */
    method ParseMoreArguments(firsts: seq<Expr>) returns (r: Result<seq<Expr>, S.ParseError>)
      requires Ready()
      modifies this
      ensures Ready() && Agrees(r, S.ParseArguments(tokens, old(pos), firsts), pos)
      decreases |tokens| - pos, 0
    {
      var arguments := firsts;
      while Match(Comma)
        invariant Ready()
        invariant S.ParseArguments(tokens, pos, arguments) == S.ParseArguments(tokens, old(pos), firsts)
        decreases |tokens| - pos
      {
        ghost var here := pos;
        Advance();
        var a :- ParseExpression();
        assert S.ParseArguments(tokens, here, arguments) == S.ParseArguments(tokens, pos, arguments + [a]);
        arguments := arguments + [a];
      }
      return Success(arguments);
    }
  }

  /** Parsing a token stream: a parser over it, then `ParseProgram`. */
  method Parse(tokens: seq<Token>) returns (r: Result<Program, S.ParseError>)
    requires S.Terminated(tokens)
    ensures r == S.ParseProgram(tokens)
  {
    var parser := new Parser(tokens);
    r := parser.ParseProgram();
  }
}
