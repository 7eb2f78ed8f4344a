/** The semantic analysis of MACSLang.SemanticAnalyzer/SemanticAnalyzer.cs as functions on
    values. The environment is the chain of scopes `outer + [top]`, root first; `top` is the
    current scope, the only one a statement can add to. A statement's result is its annotated
    node (expression types and input target types filled in) and the new current scope. An
    error is the first `SemanticError` the visit throws. */
module AnalyzerSpec {
  import opened Wrappers
  import opened Tokens
  import opened Ast
  import opened Symbols
  import opened SemanticErrors
  import opened SymbolTables
  import opened Typing

  /** An annotated node and the current scope after it. */
  datatype Checked<T> = Checked(node: T, scope: Scope)

  type Checks<T> = Result<Checked<T>, SemanticError>

  /** The analyzer's `_currentFunction` when it holds a function: `as FunctionSymbol` yields
      null for anything else. */
  function AsFunction(s: Option<Symbol>): Option<Symbol> {
    if s.Some? && s.value.FunctionSymbol? then s else None
  }

  // ---------------------------------------------------------------------------------------
  // Expressions

  /** The expression with every node's type recorded, as the `Visit` methods for expressions
      do, or the first error they throw. */
  function TypeOf(env: seq<Scope>, e: Expr): Result<Expr, SemanticError>
    decreases e, 1
  {
    match e
    case Literal(t, v, _) =>
      var ty := LiteralType(t.kind);
      if ty.None? then Throw(UnexpectedLiteral(t.kind), t) else Success(Literal(t, v, ty.value))
    case Ident(t, _) =>
      var s := Lookup(env, t.lexeme);
      if s.None? then Throw(UndeclaredIdentifier(t.lexeme), t)
      else if s.value.FunctionSymbol? then Throw(IdentifierNotVariable(t.lexeme), t)
      else Success(Ident(t, s.value.varType))
    case Unary(op, x, _) =>
      var x' :- TypeOf(env, x);
      var ty :- UnaryType(op, x'.ty);
      Success(Unary(op, x', ty))
    case Binary(l, op, r, _) =>
      var l' :- TypeOf(env, l);
      var r' :- TypeOf(env, r);
      var ty :- BinaryType(op, l'.ty, r'.ty);
      Success(Binary(l', op, r', ty))
    case Call(t, args, _) =>
      var found := Lookup(env, t.lexeme);
      if found.None? then Throw(UndeclaredFunction(t.lexeme), t)
      else
        var s := found.value;
        if s.VariableSymbol? then Throw(NotAFunction(t.lexeme), t)
        else if |args| != |s.parameterTypes| then Throw(ArgumentCount(s.name, |s.parameterTypes|, |args|), t)
        else
          var args' :- TypeArguments(env, s, args, 0, []);
          Success(Call(t, args', s.returnType))
  }

  /** The loop over the arguments of a call from position `i` on, with the arguments before it
      already typed in `done`: each is typed, then checked against its parameter. */
  function TypeArguments(env: seq<Scope>, callee: Symbol, args: seq<Expr>, i: nat, done: seq<Expr>)
    : Result<seq<Expr>, SemanticError>
    requires callee.FunctionSymbol? && |args| == |callee.parameterTypes| && i <= |args|
    decreases args, |args| - i
  {
    if i == |args| then Success(done)
    else
      var a :- TypeOf(env, args[i]);
      if !IsAssignable(callee.parameterTypes[i], a.ty) then
        Throw(ArgumentMismatch(i + 1, callee.name, callee.parameterTypes[i], a.ty), args[i].Tok())
      else TypeArguments(env, callee, args, i + 1, done + [a])
  }

  // ---------------------------------------------------------------------------------------
  // Statements

  /** A statement visited with current scope `top` below `outer`, inside function `fn`. */
  function CheckStmt(outer: seq<Scope>, top: Scope, fn: Option<Symbol>, s: Stmt): Checks<Stmt>
    decreases s, 1
  {
    match s
    case VarDecl(_, _, _, _) => CheckVarDecl(outer, top, s)
    case AssignStmt(_, _, _) => CheckAssignment(outer + [top], top, s)
    case PrintStmt(x, tok) =>
      var x' :- TypeOf(outer + [top], x);
      Success(Checked(PrintStmt(x', tok), top))
    case InputStmt(_, _, _) => CheckInput(outer + [top], top, s)
    case ReturnStmt(_, _) => CheckReturn(outer + [top], top, fn, s)
    case IfStmt(_, _, _, _) => CheckIf(outer + [top], top, fn, s)
    case WhileStmt(_, _, _) => CheckWhile(outer + [top], top, fn, s)
    case ForStmt(_, _, _, _, _) => CheckFor(outer + [top], top, fn, s)
    case ExprStmt(x, tok) =>
      var x' :- TypeOf(outer + [top], x);
      Success(Checked(ExprStmt(x', tok), top))
  }

  /** A declaration: the name must be new to the current scope, and the variable is defined
      before its initializer is typed. */
  function CheckVarDecl(outer: seq<Scope>, top: Scope, s: Stmt): Checks<Stmt>
    requires s.VarDecl?
  {
    var id := s.identifier;
    if id.lexeme in top then Throw(VariableAlreadyDeclared(id.lexeme), id)
    else
      var ty := s.varType.typeToken;
      var top' := top[id.lexeme := VariableSymbol(id.lexeme, ty)];
      if s.initialValue.None? then Success(Checked(s, top'))
      else
        var x :- TypeOf(outer + [top'], s.initialValue.value);
        if !IsAssignable(ty, x.ty) then Throw(InitializerMismatch(id.lexeme, ty, x.ty), s.initialValue.value.Tok())
        else Success(Checked(s.(initialValue := Some(x)), top'))
  }

  /** An assignment: a visible variable, and a value assignable to its type. */
  function CheckAssignment(env: seq<Scope>, top: Scope, s: Stmt): Checks<Stmt>
    requires s.AssignStmt?
  {
    var id := s.identifier;
    var found := Lookup(env, id.lexeme);
    if found.None? then Throw(UndeclaredAssignTarget(id.lexeme), id)
    else if found.value.FunctionSymbol? then Throw(AssignTargetNotVariable(id.lexeme), id)
    else
      var t := found.value.varType;
      var x :- TypeOf(env, s.value);
      if !IsAssignable(t, x.ty) then Throw(AssignmentMismatch(id.lexeme, t, x.ty), s.value.Tok())
      else Success(Checked(s.(value := x), top))
  }

  /** An input: a visible variable, whose type becomes the resolved target type. */
  function CheckInput(env: seq<Scope>, top: Scope, s: Stmt): Checks<Stmt>
    requires s.InputStmt?
  {
    var target := s.target;
    var found := Lookup(env, target.lexeme);
    if found.None? then Throw(UndeclaredInputTarget(target.lexeme), target)
    else if found.value.FunctionSymbol? then Throw(InputTargetNotVariable(target.lexeme), target)
    else Success(Checked(s.(resolvedType := found.value.varType), top))
  }

  /** A return: inside a function, with a value assignable to its return type. */
  function CheckReturn(env: seq<Scope>, top: Scope, fn: Option<Symbol>, s: Stmt): Checks<Stmt>
    requires s.ReturnStmt?
  {
    if fn.None? || !fn.value.FunctionSymbol? then Throw(ReturnOutsideFunction, s.tok)
    else
      var f := fn.value;
      var x :- TypeOf(env, s.value);
      if !IsAssignable(f.returnType, x.ty) then Throw(ReturnMismatch(f.name, f.returnType, x.ty), s.value.Tok())
      else Success(Checked(s.(value := x), top))
  }

  /** A block in a scope of its own, opened below `env` and popped afterwards. */
  function CheckScopedBlock(env: seq<Scope>, fn: Option<Symbol>, b: Block): Result<Block, SemanticError>
    decreases b, 3
  {
    var c :- CheckBlock(env, map[], fn, b);
    Success(c.node)
  }

  /** An `if`: a bool condition, then each branch in a scope of its own. */
  function CheckIf(env: seq<Scope>, top: Scope, fn: Option<Symbol>, s: Stmt): Checks<Stmt>
    requires s.IfStmt?
    decreases s, 0
  {
    var c :- TypeOf(env, s.condition);
    if c.ty != BoolKeyword then Throw(IfCondition(c.ty), s.condition.Tok())
    else
      var t :- CheckScopedBlock(env, fn, s.trueBlock);
      if s.elseBlock.None? then Success(Checked(IfStmt(c, t, None, s.tok), top))
      else
        var e :- CheckScopedBlock(env, fn, s.elseBlock.value);
        Success(Checked(IfStmt(c, t, Some(e), s.tok), top))
  }

  /** A `while`: a bool condition, then the body in a scope of its own. */
  function CheckWhile(env: seq<Scope>, top: Scope, fn: Option<Symbol>, s: Stmt): Checks<Stmt>
    requires s.WhileStmt?
    decreases s, 0
  {
    var c :- TypeOf(env, s.condition);
    if c.ty != BoolKeyword then Throw(WhileCondition(c.ty), s.condition.Tok())
    else
      var b :- CheckScopedBlock(env, fn, s.body);
      Success(Checked(WhileStmt(c, b, s.tok), top))
  }

  /** A `for`: one scope below `env` for the whole loop, shared by the initializer, the
      condition, the body and the increment, in that order. */
  function CheckFor(env: seq<Scope>, top: Scope, fn: Option<Symbol>, s: Stmt): Checks<Stmt>
    requires s.ForStmt?
    decreases s, 0
  {
    var i :- CheckSlot(env, map[], fn, s.init);
    var c :- CheckForCondition(env + [i.scope], s.forCondition);
    var b :- CheckBlock(env, i.scope, fn, s.body);
    var n :- CheckSlot(env, b.scope, fn, s.increment);
    Success(Checked(ForStmt(i.node, c, n.node, b.node, s.tok), top))
  }

  /** An optional `for` slot: visited when present. */
  function CheckSlot(outer: seq<Scope>, top: Scope, fn: Option<Symbol>, slot: Option<Stmt>): Checks<Option<Stmt>>
    decreases slot, 2
  {
    match slot
    case None => Success(Checked(None, top))
    case Some(s) =>
      var c :- CheckStmt(outer, top, fn, s);
      Success(Checked(Some(c.node), c.scope))
  }

  /** An optional `for` condition: when present it must be bool. */
  function CheckForCondition(env: seq<Scope>, c: Option<Expr>): Result<Option<Expr>, SemanticError> {
    match c
    case None => Success(None)
    case Some(x) =>
      var x' :- TypeOf(env, x);
      if x'.ty != BoolKeyword then Throw(ForCondition(x'.ty), x.Tok())
      else Success(Some(x'))
  }

  /** A block: its statements in order, in the current scope; a block opens no scope. */
  function CheckBlock(outer: seq<Scope>, top: Scope, fn: Option<Symbol>, b: Block): Checks<Block>
    decreases b, 2
  {
    var c :- CheckStatements(outer, top, fn, b.statements, 0, []);
    Success(Checked(Block(c.node, b.openBrace), c.scope))
  }

  /** The loop over the statements of a block from position `i` on, the earlier ones already
      annotated in `done`. */
  function CheckStatements(outer: seq<Scope>, top: Scope, fn: Option<Symbol>, ss: seq<Stmt>, i: nat, done: seq<Stmt>)
    : Checks<seq<Stmt>>
    requires i <= |ss|
    decreases ss, |ss| - i
  {
    if i == |ss| then Success(Checked(done, top))
    else
      var c :- CheckStmt(outer, top, fn, ss[i]);
      CheckStatements(outer, c.scope, fn, ss, i + 1, done + [c.node])
  }

  // ---------------------------------------------------------------------------------------
  // The program

  /** The parameter types of a declaration, in order. */
  function ParameterTypes(ps: seq<Param>): (r: seq<TokenType>)
    ensures |r| == |ps| && forall k | 0 <= k < |ps| :: r[k] == ps[k].paramType.typeToken
  {
    if ps == [] then [] else [ps[0].paramType.typeToken] + ParameterTypes(ps[1..])
  }

  /** The symbol the first phase registers for a declaration. */
  function SignatureOf(f: Function): Symbol {
    NewFunctionSymbol(f.identifier.lexeme, Some(ParameterTypes(f.parameters)), f.returnType.typeToken)
  }

  /** The first phase from declaration `i` on: each signature defined in the global scope. */
  function RegisterFunctions(fs: seq<Function>, i: nat, globals: Scope): Result<Scope, SemanticError>
    requires i <= |fs|
    decreases |fs| - i
  {
    if i == |fs| then Success(globals)
    else
      var g :- DefineIn(globals, SignatureOf(fs[i]));
      RegisterFunctions(fs, i + 1, g)
  }

  /** The parameters from position `i` on, each defined as a variable of the function scope. */
  function DefineParameters(ps: seq<Param>, i: nat, scope: Scope): Result<Scope, SemanticError>
    requires i <= |ps|
    decreases |ps| - i
  {
    if i == |ps| then Success(scope)
    else
      var s :- DefineIn(scope, VariableSymbol(ps[i].identifier.lexeme, ps[i].paramType.typeToken));
      DefineParameters(ps, i + 1, s)
  }

  /** One function of the second phase: a scope below the global one, the function as
      `_currentFunction`, the parameters, then the body. */
  function CheckFunction(globals: Scope, f: Function): Result<Function, SemanticError> {
    var fn := AsFunction(Lookup([globals, map[]], f.identifier.lexeme));
    var scope :- DefineParameters(f.parameters, 0, map[]);
    var body :- CheckBlock([globals], scope, fn, f.body);
    Success(f.(body := body.node))
  }

  /** The second phase from declaration `i` on, the earlier ones already checked in `done`. */
  function CheckFunctions(globals: Scope, fs: seq<Function>, i: nat, done: seq<Function>)
    : Result<seq<Function>, SemanticError>
    requires i <= |fs|
    decreases |fs| - i
  {
    if i == |fs| then Success(done)
    else
      var f :- CheckFunction(globals, fs[i]);
      CheckFunctions(globals, fs, i + 1, done + [f])
  }

  /** `Visit(ProgramNode)` from a global scope holding `globals`: first every signature is
      registered, then every body is checked; the annotated program, or the first error. */
  function CheckProgram(globals: Scope, p: Program): Result<Program, SemanticError> {
    var g :- RegisterFunctions(p.functions, 0, globals);
    var fs :- CheckFunctions(g, p.functions, 0, []);
    Success(Program(fs))
  }

  /** `Analyze(program)` on a new analyzer, whose global scope starts empty. */
  function Analyze(p: Program): Result<Program, SemanticError> {
    CheckProgram(map[], p)
  }
}
