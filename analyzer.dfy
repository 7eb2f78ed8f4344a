/** The semantic analyzer (MACSLang.SemanticAnalyzer/SemanticAnalyzer.cs) as a class over
    `_currentScope` and `_currentFunction`. Each `Visit` method is proved to compute what the
    matching function of `AnalyzerSpec` computes: the annotated node, or the same error. The
    statement visits open and pop scopes by reassigning `currentScope`, as the source does. */
module Analyzer {
  import opened Wrappers
  import opened Tokens
  import opened Ast
  import opened Symbols
  import opened SemanticErrors
  import opened SymbolTables
  import opened Typing
  import S = AnalyzerSpec

  /** A visit agrees with its specification: the same error, or the same node together with
      the current scope `scope` it leaves behind. */
  predicate Agrees<T(==)>(r: Result<T, SemanticError>, spec: S.Checks<T>, scope: Scope) {
    match r
    case Success(v) => spec == Success(S.Checked(v, scope))
    case Failure(e) => spec == Failure(e)
  }

  /** A sequence of definitions agrees with its specification: the same error, or success
      with the scope `scope` it leaves behind. */
  predicate Defines(r: Outcome<SemanticError>, spec: Result<Scope, SemanticError>, scope: Scope) {
    match r
    case Pass => spec == Success(scope)
    case Fail(e) => spec == Failure(e)
  }

  class SemanticAnalyzer {
    /** `_currentScope`. */
    var currentScope: SymbolTable
    /** `_currentFunction`, null outside a function body. */
    var currentFunction: Option<Symbol>

    ghost predicate Valid()
      reads this
    {
      currentScope.Valid()
    }

    /** `new SemanticAnalyzer()`: an empty global scope and no current function. */
    constructor ()
      ensures Valid() && fresh(currentScope)
      ensures currentScope.parent == null && currentScope.symbols == map[] && currentFunction == None
    {
      currentScope := new SymbolTable(null);
      currentFunction := None;
    }

    // -------------------------------------------------------------------------------------
    // Expressions: nothing changes but the recorded types, which the result carries.

    method VisitExpression(e: Expr) returns (r: Result<Expr, SemanticError>)
      requires Valid()
      ensures r == S.TypeOf(currentScope.Chain(), e)
      decreases e, 1
    {
      match e
      case Binary(_, _, _, _) => r := VisitBinary(e);
      case Unary(_, _, _) => r := VisitUnary(e);
      case Literal(_, _, _) => r := VisitLiteral(e);
      case Ident(_, _) => r := VisitIdentifier(e);
      case Call(_, _, _) => r := VisitFunctionCall(e);
    }

    /** `Visit(BinaryExpressionNode)`: both operands, then the operator's rule. */
    method VisitBinary(e: Expr) returns (r: Result<Expr, SemanticError>)
      requires Valid() && e.Binary?
      ensures r == S.TypeOf(currentScope.Chain(), e)
      decreases e, 0
    {
      var l := VisitExpression(e.left);
      if l.Failure? {
        return Failure(l.error);
      }
      var rr := VisitExpression(e.right);
      if rr.Failure? {
        return Failure(rr.error);
      }
      var ty := BinaryType(e.op, l.value.ty, rr.value.ty);
      if ty.Failure? {
        return Failure(ty.error);
      }
      return Success(Binary(l.value, e.op, rr.value, ty.value));
    }

    /** `Visit(UnaryExpressionNode)`: the operand, then the operator's rule. */
    method VisitUnary(e: Expr) returns (r: Result<Expr, SemanticError>)
      requires Valid() && e.Unary?
      ensures r == S.TypeOf(currentScope.Chain(), e)
      decreases e, 0
    {
      var x := VisitExpression(e.operand);
      if x.Failure? {
        return Failure(x.error);
      }
      var ty := UnaryType(e.op, x.value.ty);
      if ty.Failure? {
        return Failure(ty.error);
      }
      return Success(Unary(e.op, x.value, ty.value));
    }

    /** `Visit(LiteralExpressionNode)`: the type of the literal's token kind. */
    method VisitLiteral(e: Expr) returns (r: Result<Expr, SemanticError>)
      requires Valid() && e.Literal?
      ensures r == S.TypeOf(currentScope.Chain(), e)
      decreases e, 0
    {
      var ty := LiteralType(e.valueToken.kind);
      if ty.None? {
        return Throw(UnexpectedLiteral(e.valueToken.kind), e.valueToken);
      }
      return Success(Literal(e.valueToken, e.value, ty.value));
    }

    /** `Visit(IdentifierExpressionNode)`: the type of the variable the name resolves to. */
    method VisitIdentifier(e: Expr) returns (r: Result<Expr, SemanticError>)
      requires Valid() && e.Ident?
      ensures r == S.TypeOf(currentScope.Chain(), e)
      decreases e, 0
    {
      var name := e.identifier.lexeme;
      var symbol := currentScope.Resolve(name);
      if symbol.None? {
        return Throw(UndeclaredIdentifier(name), e.identifier);
      }
      if !symbol.value.VariableSymbol? {
        return Throw(IdentifierNotVariable(name), e.identifier);
      }
      return Success(Ident(e.identifier, symbol.value.varType));
    }

    /** `Visit(FunctionCallExpressionNode)`: the callee, the argument count, then each
        argument in order against its parameter; the call has the return type. */
    method VisitFunctionCall(e: Expr) returns (r: Result<Expr, SemanticError>)
      requires Valid() && e.Call?
      ensures r == S.TypeOf(currentScope.Chain(), e)
      decreases e, 0
    {
      ghost var env := currentScope.Chain();
      var name := e.identifier.lexeme;
      var found := currentScope.Resolve(name);
      if found.None? {
        return Throw(UndeclaredFunction(name), e.identifier);
      }
      var callee := found.value;
      if !callee.FunctionSymbol? {
        return Throw(NotAFunction(name), e.identifier);
      }
      var args := e.arguments;
      if |args| != |callee.parameterTypes| {
        return Throw(ArgumentCount(callee.name, |callee.parameterTypes|, |args|), e.identifier);
      }
      var typed: seq<Expr> := [];
      var i := 0;
      while i < |args|
        invariant 0 <= i <= |args|
        invariant S.TypeArguments(env, callee, args, 0, []) == S.TypeArguments(env, callee, args, i, typed)
        decreases |args| - i
      {
        var a := VisitExpression(args[i]);
        if a.Failure? {
          return Failure(a.error);
        }
        if !IsAssignable(callee.parameterTypes[i], a.value.ty) {
          return Throw(ArgumentMismatch(i + 1, callee.name, callee.parameterTypes[i], a.value.ty), args[i].Tok());
        }
        typed := typed + [a.value];
        i := i + 1;
      }
      return Success(Call(e.identifier, typed, callee.returnType));
    }

    // -------------------------------------------------------------------------------------
    // Statements. On success the current scope is the same table as before, so every scope
    // a statement opens has been popped again.

    method VisitStatement(s: Stmt) returns (r: Result<Stmt, SemanticError>)
      requires Valid()
      modifies this, currentScope
      ensures Valid() && currentFunction == old(currentFunction)
      ensures Agrees(r, S.CheckStmt(old(currentScope.Outer()), old(currentScope.symbols), old(currentFunction), s),
                     currentScope.symbols)
      ensures r.Success? ==> currentScope == old(currentScope)
      decreases s, 1
    {
      ghost var outer, top := currentScope.Outer(), currentScope.symbols;
      assert currentScope.Chain() == outer + [top];
      match s
      case VarDecl(_, _, _, _) => r := VisitVariableDeclaration(s);
      case AssignStmt(_, _, _) => r := VisitAssignment(s);
      case PrintStmt(_, _) => r := VisitPrint(s);
      case InputStmt(_, _, _) => r := VisitInput(s);
      case ReturnStmt(_, _) => r := VisitReturn(s);
      case IfStmt(_, _, _, _) => r := VisitIf(s);
      case WhileStmt(_, _, _) => r := VisitWhile(s);
      case ForStmt(_, _, _, _, _) => r := VisitFor(s);
      case ExprStmt(_, _) => r := VisitExpressionStatement(s);
    }

    /** `Visit(BlockStatementNode)`: the statements in order, in the current scope. */
    method VisitBlock(b: Block) returns (r: Result<Block, SemanticError>)
      requires Valid()
      modifies this, currentScope
      ensures Valid() && currentFunction == old(currentFunction)
      ensures Agrees(r, S.CheckBlock(old(currentScope.Outer()), old(currentScope.symbols), old(currentFunction), b),
                     currentScope.symbols)
      ensures r.Success? ==> currentScope == old(currentScope) && currentScope.Outer() == old(currentScope.Outer())
      decreases b, 2
    {
      ghost var outer := currentScope.Outer();
      ghost var fn := currentFunction;
      var ss := b.statements;
      var done: seq<Stmt> := [];
      var i := 0;
      while i < |ss|
        invariant 0 <= i <= |ss|
        invariant Valid() && currentScope == old(currentScope) && currentFunction == fn
        invariant currentScope.Outer() == outer
        invariant S.CheckStatements(outer, old(currentScope.symbols), fn, ss, 0, [])
               == S.CheckStatements(outer, currentScope.symbols, fn, ss, i, done)
        decreases |ss| - i
      {
        var c := VisitStatement(ss[i]);
        if c.Failure? {
          return Failure(c.error);
        }
        done := done + [c.value];
        i := i + 1;
      }
      return Success(Block(done, b.openBrace));
    }

    /** `Visit(VariableDeclarationNode)`: the name must be new to the current scope; it is
        defined before the initializer is typed. */
    method VisitVariableDeclaration(s: Stmt) returns (r: Result<Stmt, SemanticError>)
      requires Valid() && s.VarDecl?
      modifies currentScope
      ensures Valid() && currentFunction == old(currentFunction)
      ensures Agrees(r, S.CheckVarDecl(old(currentScope.Outer()), old(currentScope.symbols), s), currentScope.symbols)
      ensures currentScope.Outer() == old(currentScope.Outer())
      decreases s, 0
    {
      ghost var outer := currentScope.Outer();
      var name := s.identifier.lexeme;
      if name in currentScope.symbols {
        return Throw(VariableAlreadyDeclared(name), s.identifier);
      }
      var defined := currentScope.Define(VariableSymbol(name, s.varType.typeToken));
      assert currentScope.Chain() == outer + [currentScope.symbols];
      if s.initialValue.None? {
        return Success(s);
      }
      var x := VisitExpression(s.initialValue.value);
      if x.Failure? {
        return Failure(x.error);
      }
      if !IsAssignable(s.varType.typeToken, x.value.ty) {
        return Throw(InitializerMismatch(name, s.varType.typeToken, x.value.ty), s.initialValue.value.Tok());
      }
      return Success(VarDecl(s.identifier, s.varType, Some(x.value), s.tok));
    }

    /** `Visit(AssignmentStatementNode)`: the target must be a visible variable and the value
        assignable to its type. */
    method VisitAssignment(s: Stmt) returns (r: Result<Stmt, SemanticError>)
      requires Valid() && s.AssignStmt?
      ensures Agrees(r, S.CheckAssignment(currentScope.Chain(), currentScope.symbols, s), currentScope.symbols)
      decreases s, 0
    {
      var name := s.identifier.lexeme;
      var target := currentScope.Resolve(name);
      if target.None? {
        return Throw(UndeclaredAssignTarget(name), s.identifier);
      }
      if !target.value.VariableSymbol? {
        return Throw(AssignTargetNotVariable(name), s.identifier);
      }
      var x := VisitExpression(s.value);
      if x.Failure? {
        return Failure(x.error);
      }
      if !IsAssignable(target.value.varType, x.value.ty) {
        return Throw(AssignmentMismatch(name, target.value.varType, x.value.ty), s.value.Tok());
      }
      return Success(AssignStmt(s.identifier, x.value, s.tok));
    }

    /** `Visit(PrintStatementNode)`: any well-typed expression may be printed. */
    method VisitPrint(s: Stmt) returns (r: Result<Stmt, SemanticError>)
      requires Valid() && s.PrintStmt?
      ensures Agrees(r, S.CheckStmt(currentScope.Outer(), currentScope.symbols, currentFunction, s),
                     currentScope.symbols)
      decreases s, 0
    {
      var x := VisitExpression(s.expression);
      if x.Failure? {
        return Failure(x.error);
      }
      return Success(PrintStmt(x.value, s.tok));
    }

    /** `Visit(InputStatementNode)`: the target must be a visible variable, whose type is
        recorded as `ResolvedTargetType`. */
    method VisitInput(s: Stmt) returns (r: Result<Stmt, SemanticError>)
      requires Valid() && s.InputStmt?
      ensures Agrees(r, S.CheckInput(currentScope.Chain(), currentScope.symbols, s), currentScope.symbols)
      decreases s, 0
    {
      var name := s.target.lexeme;
      var target := currentScope.Resolve(name);
      if target.None? {
        return Throw(UndeclaredInputTarget(name), s.target);
      }
      if !target.value.VariableSymbol? {
        return Throw(InputTargetNotVariable(name), s.target);
      }
      return Success(InputStmt(s.target, target.value.varType, s.tok));
    }

    /** `Visit(ReturnStatementNode)`: only inside a function, with a value assignable to its
        return type. */
    method VisitReturn(s: Stmt) returns (r: Result<Stmt, SemanticError>)
      requires Valid() && s.ReturnStmt?
      ensures Agrees(r, S.CheckReturn(currentScope.Chain(), currentScope.symbols, currentFunction, s),
                     currentScope.symbols)
      decreases s, 0
    {
      if currentFunction.None? || !currentFunction.value.FunctionSymbol? {
        return Throw(ReturnOutsideFunction, s.tok);
      }
      var f := currentFunction.value;
      var x := VisitExpression(s.value);
      if x.Failure? {
        return Failure(x.error);
      }
      if !IsAssignable(f.returnType, x.value.ty) {
        return Throw(ReturnMismatch(f.name, f.returnType, x.value.ty), s.value.Tok());
      }
      return Success(ReturnStmt(x.value, s.tok));
    }

    /** A block in a scope of its own: `_currentScope = new SymbolTable(_currentScope)`, the
        block, then `_currentScope = _currentScope.ParentScope`. */
    method VisitScopedBlock(b: Block) returns (r: Result<Block, SemanticError>)
      requires Valid()
      modifies this
      ensures Valid() && currentFunction == old(currentFunction)
      ensures r == S.CheckScopedBlock(old(currentScope.Chain()), old(currentFunction), b)
      ensures r.Success? ==> currentScope == old(currentScope)
      decreases b, 3
    {
      ghost var env := currentScope.Chain();
      var saved := currentScope;
      currentScope := new SymbolTable(currentScope);
      assert currentScope.Outer() == env;
      var c := VisitBlock(b);
      if c.Failure? {
        return Failure(c.error);
      }
      currentScope := currentScope.parent;
      assert currentScope == saved;
      return Success(c.value);
    }

    /** `Visit(IfStatementNode)`: a bool condition, then each branch in a scope of its own. */
    method VisitIf(s: Stmt) returns (r: Result<Stmt, SemanticError>)
      requires Valid() && s.IfStmt?
      modifies this
      ensures Valid() && currentFunction == old(currentFunction)
      ensures Agrees(r, S.CheckIf(old(currentScope.Chain()), old(currentScope.symbols), old(currentFunction), s),
                     old(currentScope.symbols))
      ensures r.Success? ==> currentScope == old(currentScope)
      decreases s, 0
    {
      var c := VisitExpression(s.condition);
      if c.Failure? {
        return Failure(c.error);
      }
      if c.value.ty != BoolKeyword {
        return Throw(IfCondition(c.value.ty), s.condition.Tok());
      }
      var t := VisitScopedBlock(s.trueBlock);
      if t.Failure? {
        return Failure(t.error);
      }
      if s.elseBlock.None? {
        return Success(IfStmt(c.value, t.value, None, s.tok));
      }
      var e := VisitScopedBlock(s.elseBlock.value);
      if e.Failure? {
        return Failure(e.error);
      }
      return Success(IfStmt(c.value, t.value, Some(e.value), s.tok));
    }

    /** `Visit(WhileStatementNode)`: a bool condition, then the body in a scope of its own. */
    method VisitWhile(s: Stmt) returns (r: Result<Stmt, SemanticError>)
      requires Valid() && s.WhileStmt?
      modifies this
      ensures Valid() && currentFunction == old(currentFunction)
      ensures Agrees(r, S.CheckWhile(old(currentScope.Chain()), old(currentScope.symbols), old(currentFunction), s),
                     old(currentScope.symbols))
      ensures r.Success? ==> currentScope == old(currentScope)
      decreases s, 0
    {
      var c := VisitExpression(s.condition);
      if c.Failure? {
        return Failure(c.error);
      }
      if c.value.ty != BoolKeyword {
        return Throw(WhileCondition(c.value.ty), s.condition.Tok());
      }
      var b := VisitScopedBlock(s.body);
      if b.Failure? {
        return Failure(b.error);
      }
      return Success(WhileStmt(c.value, b.value, s.tok));
    }

    /** An optional initializer or increment of a `for`, visited in the current scope. */
    method VisitSlot(slot: Option<Stmt>) returns (r: Result<Option<Stmt>, SemanticError>)
      requires Valid()
      modifies this, currentScope
      ensures Valid() && currentFunction == old(currentFunction)
      ensures Agrees(r, S.CheckSlot(old(currentScope.Outer()), old(currentScope.symbols), old(currentFunction), slot),
                     currentScope.symbols)
      ensures r.Success? ==> currentScope == old(currentScope) && currentScope.Outer() == old(currentScope.Outer())
      decreases slot, 2
    {
      if slot.None? {
        return Success(None);
      }
      var c := VisitStatement(slot.value);
      if c.Failure? {
        return Failure(c.error);
      }
      return Success(Some(c.value));
    }

    /** An optional `for` condition: when present it must be bool. */
    method VisitForCondition(c: Option<Expr>) returns (r: Result<Option<Expr>, SemanticError>)
      requires Valid()
      ensures r == S.CheckForCondition(currentScope.Chain(), c)
    {
      if c.None? {
        return Success(None);
      }
      var x := VisitExpression(c.value);
      if x.Failure? {
        return Failure(x.error);
      }
      if x.value.ty != BoolKeyword {
        return Throw(ForCondition(x.value.ty), c.value.Tok());
      }
      return Success(Some(x.value));
    }

    /** `Visit(ForStatementNode)`: one scope for the whole loop, shared by the initializer, the
        condition, the body and the increment, visited in that order. */
    method VisitFor(s: Stmt) returns (r: Result<Stmt, SemanticError>)
      requires Valid() && s.ForStmt?
      modifies this
      ensures Valid() && currentFunction == old(currentFunction)
      ensures Agrees(r, S.CheckFor(old(currentScope.Chain()), old(currentScope.symbols), old(currentFunction), s),
                     old(currentScope.symbols))
      ensures r.Success? ==> currentScope == old(currentScope)
      decreases s, 0
    {
      ghost var env := currentScope.Chain();
      var saved := currentScope;
      currentScope := new SymbolTable(currentScope);
      assert currentScope.Outer() == env;
      var init := VisitSlot(s.init);
      if init.Failure? {
        return Failure(init.error);
      }
      var condition := VisitForCondition(s.forCondition);
      if condition.Failure? {
        return Failure(condition.error);
      }
      var b := VisitBlock(s.body);
      if b.Failure? {
        return Failure(b.error);
      }
      var increment := VisitSlot(s.increment);
      if increment.Failure? {
        return Failure(increment.error);
      }
      currentScope := currentScope.parent;
      assert currentScope == saved;
      return Success(ForStmt(init.value, condition.value, increment.value, b.value, s.tok));
    }

    /** `Visit(ExpressionStatementNode)`. */
    method VisitExpressionStatement(s: Stmt) returns (r: Result<Stmt, SemanticError>)
      requires Valid() && s.ExprStmt?
      ensures Agrees(r, S.CheckStmt(currentScope.Outer(), currentScope.symbols, currentFunction, s),
                     currentScope.symbols)
      decreases s, 0
    {
      var x := VisitExpression(s.expression);
      if x.Failure? {
        return Failure(x.error);
      }
      return Success(ExprStmt(x.value, s.tok));
    }

    // -------------------------------------------------------------------------------------
    // The program

    /** The signature the first loop of `Visit(ProgramNode)` builds for a declaration: its
        parameter types collected in order. */
    static method Signature(f: Function) returns (symbol: Symbol)
      ensures symbol == S.SignatureOf(f)
    {
      var ps := f.parameters;
      var paramTypes: seq<TokenType> := [];
      var j := 0;
      while j < |ps|
        invariant 0 <= j <= |ps|
        invariant |paramTypes| == j && forall k | 0 <= k < j :: paramTypes[k] == ps[k].paramType.typeToken
        decreases |ps| - j
      {
        paramTypes := paramTypes + [ps[j].paramType.typeToken];
        j := j + 1;
      }
      assert paramTypes == S.ParameterTypes(ps);
      symbol := NewFunctionSymbol(f.identifier.lexeme, Some(paramTypes), f.returnType.typeToken);
    }

    /** The first loop of `Visit(ProgramNode)`: every signature defined in the current scope;
        a second declaration of a name throws. */
    method RegisterFunctions(fs: seq<Function>) returns (r: Outcome<SemanticError>)
      requires Valid()
      modifies currentScope
      ensures Defines(r, S.RegisterFunctions(fs, 0, old(currentScope.symbols)), currentScope.symbols)
    {
      var i := 0;
      while i < |fs|
        invariant 0 <= i <= |fs|
        invariant S.RegisterFunctions(fs, 0, old(currentScope.symbols)) == S.RegisterFunctions(fs, i, currentScope.symbols)
        decreases |fs| - i
      {
        var symbol := Signature(fs[i]);
        var defined := currentScope.Define(symbol);
        if defined.Fail? {
          return defined;
        }
        i := i + 1;
      }
      return Pass;
    }

    /** The parameter loop of `Visit(ProgramNode)`: each parameter defined as a variable of the
        current scope; two parameters of one name throw. */
    method DefineParameters(ps: seq<Param>) returns (r: Outcome<SemanticError>)
      modifies currentScope
      ensures Defines(r, S.DefineParameters(ps, 0, old(currentScope.symbols)), currentScope.symbols)
    {
      var j := 0;
      while j < |ps|
        invariant 0 <= j <= |ps|
        invariant S.DefineParameters(ps, 0, old(currentScope.symbols)) == S.DefineParameters(ps, j, currentScope.symbols)
        decreases |ps| - j
      {
        var defined := currentScope.Define(VariableSymbol(ps[j].identifier.lexeme, ps[j].paramType.typeToken));
        if defined.Fail? {
          return defined;
        }
        j := j + 1;
      }
      return Pass;
    }

    /** One pass of the second loop of `Visit(ProgramNode)`: a scope below the global one, the
        function as `_currentFunction`, its parameters, its body; then the scope is popped
        and `_currentFunction` reset. */
    method AnalyzeFunction(f: Function) returns (r: Result<Function, SemanticError>)
      requires Valid() && currentScope.parent == null
      modifies this
      ensures Valid()
      ensures r == S.CheckFunction(old(currentScope.symbols), f)
      ensures r.Success? ==> currentScope == old(currentScope) && currentFunction == None
    {
      ghost var globals := currentScope.symbols;
      var global := currentScope;
      currentScope := new SymbolTable(currentScope);
      var found := currentScope.Resolve(f.identifier.lexeme);
      currentFunction := if found.Some? && found.value.FunctionSymbol? then found else None;
      assert currentFunction == S.AsFunction(Lookup([globals, map[]], f.identifier.lexeme));
      var defined := DefineParameters(f.parameters);
      if defined.Fail? {
        return Failure(defined.error);
      }
      assert currentScope.Outer() == [globals];
      var body := VisitBlock(f.body);
      if body.Failure? {
        return Failure(body.error);
      }
      currentScope := currentScope.parent;
      assert currentScope == global;
      currentFunction := None;
      return Success(f.(body := body.value));
    }

    /** `Visit(ProgramNode)`: the first loop defines every function's signature in the global
        scope, so a body may call a function declared after it; the second loop checks each
        body in turn. */
    method VisitProgram(p: Program) returns (r: Result<Program, SemanticError>)
      requires Valid() && currentScope.parent == null
      modifies this, currentScope
      ensures Valid()
      ensures r == S.CheckProgram(old(currentScope.symbols), p)
      ensures r.Success? ==>
        && currentScope == old(currentScope) && currentFunction == None
        && S.RegisterFunctions(p.functions, 0, old(currentScope.symbols)) == Success(currentScope.symbols)
    {
      var fs := p.functions;
      var registered := RegisterFunctions(fs);
      if registered.Fail? {
        return Failure(registered.error);
      }
      var global := currentScope;
      ghost var globals := global.symbols;
      var done: seq<Function> := [];
      var i := 0;
      while i < |fs|
        invariant 0 <= i <= |fs|
        invariant Valid() && currentScope == global && global.symbols == globals
        invariant i > 0 ==> currentFunction == None
        invariant S.CheckFunctions(globals, fs, 0, []) == S.CheckFunctions(globals, fs, i, done)
        decreases |fs| - i
      {
        var f := AnalyzeFunction(fs[i]);
        if f.Failure? {
          return Failure(f.error);
        }
        done := done + [f.value];
        i := i + 1;
      }
      currentFunction := None;
      return Success(Program(done));
    }
  }

  /** `new SemanticAnalyzer().Analyze(program)`: the analysis of a whole program. */
  method Analyze(p: Program) returns (r: Result<Program, SemanticError>)
    ensures r == S.Analyze(p)
  {
    var analyzer := new SemanticAnalyzer();
    r := analyzer.VisitProgram(p);
  }
}
